# Blog subscription checkout, confirmation and post ownership

This project models the part of the `myblog` Django application that has
behaviour of its own: the paid-subscription flow in `myblog/blog/views.py` and
the ownership rules of its post views. The flow has three steps.
`payment` checks a plan name against a price table and asks the Razorpay
gateway for an order. `payment_success` takes the gateway's redirect
(`payment_id`, `order_id`, `signature`, `plan_type`), verifies the
signature, records a Payment and creates or renews the user's Subscription.
`dashboard` shows the user's first active subscription.

Layout:

- `wrappers.dfy`: `Option`.
- `records.dfy`: the rows of the Post, Payment and Subscription tables (`myblog/blog/models.py`) and the constants the views write. Money is in paise (hundredths of a rupee), which are exactly the two decimal places of `Payment.amount`. The rupee amounts 99.00, 199.00 and 299.00 of `get_plan_amount` are therefore 9900, 19900 and 29900. Time is an integer number of seconds. The 30-day renewal window is `RenewalWindow`.
- `plans.dfy`: lower-casing, the two price tables, and the checkout view as a function of the plan name and a gateway oracle.
- `ledger.dfy`: `payment_success` as a transition `Confirm` on the Payment and Subscription tables, the `get_or_create` lookup, the dashboard's pick, and lemmas about them.
- `posts.dfy`: `create_post`, `edit_post` and `delete_post_confirm` as transitions on the Post table.
- `blog.dfy`: the class `Database`, holding the three tables as fields. Its methods update those fields step by step in the source's order, and each is proved equal to the transition that specifies it. It also says which tables a method leaves alone.

Modelling choices:

- Signature verification is an input function `verify(order_id, payment_id, signature)`. Order creation is an input function from the order request to an order id, or None for an exception of the class the checkout view catches.
- The Subscription table is a sequence of rows in key order, not a map. Nothing in the schema stops a user from having two rows, and then `get_or_create` raises. The confirmation's catch-all turns that into the generic error, after the Payment row has been written. `OneRowPerUser` is the shape the upsert assumes. `ConfirmKeepsOneRowPerUser` proves that a confirmation keeps it.
- `plan_type` is any string. The column's `monthly`/`yearly` choice list is not enforced on save, and the confirmation stores the plan as received, without lower-casing it.

Four behaviours of the code that the model keeps, though a reader might expect otherwise:

- The payment write and the subscription write are not one atomic step.
- The upsert is keyed on the user alone, whether or not the existing row is active.
- An unknown plan name at confirmation is charged at 99.00 rather than refused.
- A renewal keeps the row's original start date.

`SignatureDoesNotCoverPlan` makes one more consequence of the code explicit. The verified triple does not include the plan, so the plan that is subscribed, and the amount recorded, are whatever non-empty `plan_type` the redirect claims.

## Model

| member | source | states |
|---|---|---|
| `Plans.Lower` | myblog/blog/views.py:137 | lower-casing keeps the length and lower-cases each character in place |
| `Plans.LowerMatchesName` | myblog/blog/views.py:240 | a string lower-cases to a plan name exactly when it spells that name in some mix of letter cases |
| `Plans.CheckoutPrice` | myblog/blog/views.py:130-140 | "basic", "standard", "premium" in any letter case price at 9900, 19900, 29900 paise; every other string has no price |
| `Plans.PlanAmount` | myblog/blog/views.py:234-240 | standard and premium in any case record 19900 and 29900 paise; every other string, basic included, records 9900 |
| `Plans.PricesAgree` | myblog/blog/views.py:235-240 | a plan the checkout prices is recorded at that same price; an unpriced name records the fallback |
| `Plans.Checkout` | myblog/blog/views.py:127-173 | an unknown plan ends as InvalidPlan; a known one asks the gateway for an INR order of its price with the plan name as given; a gateway failure ends as GatewayError; otherwise the page gets the gateway's order id and the price |
| `Plans.InvalidPlanCreatesNoOrder` | myblog/blog/views.py:136-140 | for an unknown plan the outcome does not depend on the gateway: no order is requested |
| `Plans.CaseExamples` | myblog/blog/views.py:137 | "Premium", "BASIC" and "StAnDaRd" resolve to their plans; "gold" has no checkout price and records the fallback |
| `Ledger.LookupUser` | myblog/blog/views.py:207-210 | the user has no row, exactly one row (and its index), or at least two rows |
| `Ledger.ActiveSubscription` | myblog/blog/views.py:44 | the index of the user's first active row, or none exactly when the user has no active row |
| `Ledger.Confirm` | myblog/blog/views.py:178-232 | a missing or empty parameter ends as IncompleteCallback with both tables unchanged; a failed verification ends as SignatureInvalid with both unchanged; otherwise exactly one completed Payment with the given id and `get_plan_amount` is appended, whatever payments exist; several rows for the user end as InternalError with that payment kept and subscriptions unchanged; a success carries the received plan, now + 30 days and active |
| `Ledger.SuccessUpsert` | myblog/blog/views.py:205-215 | after a success the user has exactly one row, holding the new values, and the dashboard shows it; an existing row keeps its position and start date and a new row starts now; no row is removed; other users' rows are unchanged |
| `Ledger.ConfirmKeepsOneRowPerUser` | myblog/blog/views.py:207-215 | from at most one row per user, a confirmation keeps at most one row per user and never fails at the upsert |
| `Ledger.LaterConfirmationWins` | myblog/blog/views.py:198-215 | two successful confirmations in a row append both payments in order, even with the same payment id, and the user's row holds only the later plan and window |
| `Ledger.SignatureDoesNotCoverPlan` | myblog/blog/views.py:188-203 | changing only the claimed plan changes no outcome; on success the recorded amount and subscribed plan follow the claim |
| `Ledger.FirstPremiumPurchase` | myblog/blog/views.py:197-215 | a verified first premium confirmation leaves one completed payment of 29900 paise and one active premium row ending 30 days from now |
| `Posts.Create` | myblog/blog/views.py:51-63 | a valid form adds exactly one post under the fresh key, authored by the requester, dated now, with the form's fields; otherwise the form is shown and nothing changes |
| `Posts.Edit` | myblog/blog/views.py:66-77 | a post the requester does not own is not found; the owner's valid form overwrites only that post's fields, keeping author and date; the owner's GET or invalid form shows the form; any other request changes nothing |
| `Posts.Delete` | myblog/blog/views.py:80-87 | a post the requester does not own is not found; the owner's POST removes exactly that post and keeps every other one; the owner's GET shows the confirmation page and changes nothing |
| `Posts.CreatedPostOwnedByCreator` | myblog/blog/views.py:57 | a new post cannot be edited or deleted by anyone else, and its creator's delete restores the table |
| `Blog.Database.constructor` | myblog/blog/models.py:5-35 | an empty database with every post key fresh |
| `Blog.Database.Dashboard` | myblog/blog/views.py:41-48 | the user's posts, and the first active row of the user in key order, or none when the user has no active row |
| `Blog.Database.CreatePost` | myblog/blog/views.py:51-63 | performs `Posts.Create` with the next key; payments and subscriptions unchanged |
| `Blog.Database.EditPost` | myblog/blog/views.py:66-77 | performs `Posts.Edit`; payments and subscriptions unchanged |
| `Blog.Database.DeletePostConfirm` | myblog/blog/views.py:80-87 | performs `Posts.Delete`; payments and subscriptions unchanged |
| `Blog.Database.PaymentSuccess` | myblog/blog/views.py:177-232 | writes the payment, then the subscription, and ends in exactly the state and outcome of `Ledger.Confirm`; after a success the dashboard shows the new subscription; posts unchanged |

## Left out

- Razorpay: order creation (myblog/blog/views.py:156) and signature verification (myblog/blog/views.py:191-195) are calls into an external library over the network. They are input functions here; the HMAC is not modelled.
- `Plans.Lower` lower-cases only A to Z. Python's `str.lower` also maps other Unicode letters. As far as the plan lookup goes, this should make no difference, because the only non-ASCII character that lower-cases to an ASCII letter is the Kelvin sign, and its `k` is in no plan name.
- `Plans.Checkout`: None from the gateway stands for an exception of the class named at myblog/blog/views.py:170, which the view turns into a redirect. Every other exception escapes the view uncaught, with no redirect: one from constructing the client (myblog/blog/views.py:143, outside the `try`), any other exception of `client.order.create` (myblog/blog/views.py:156), and a reply without an `id` (myblog/blog/views.py:159, 163). The model has no outcome for these. Whether the gateway library defines the caught class at all is not settled by the code here.
- `Ledger.Confirm`: InternalError arises only from several Subscription rows for the user. Other exceptions inside the `try` are not modelled: a database error on either write, a column-length error on a database that enforces `max_length` (10 for `plan_type`, 100 for `payment_id`; SQLite does not), or a non-signature gateway exception.
- `Ledger.Confirm` uses one `now` for the payment's timestamp, the new row's start date and the end date. The source reads the clock separately for each, and `datetime.now()` is naive local time.
- The receipt string built from the clock (myblog/blog/views.py:150) and the display amount `amount / 100` (myblog/blog/views.py:164) are left out.
- ORM transactions, the `get_or_create` create-then-retry path, and concurrent confirmations racing on one user's row are left out. Each request is one sequential step on the tables.
- `Blog.Database.Dashboard` gives the user's posts as a set; their order by descending creation date is not modelled.
- The post form (`forms.py`) is not part of this model. A form's validation result is an input, and the fields it sets are taken to be title, content and image. Image file storage is not modelled.
- `login_required` redirects, templates, flash messages, logging, HTTP responses beyond an outcome tag, `home`, `register`, `custom_logout`, and the static pages are left out.
- The static plan list of `subscription` (myblog/blog/views.py:92-123) is template data. Its prices 99/199/299 are the same as those of the two tables.
- `myblog/blog/urls.py` and `myblog/blog/admin.py` are routing and admin display only; `myblog/blog/models.py` contributes record shapes only.
