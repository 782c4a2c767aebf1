/**
 * The record shapes of the blog's three tables (myblog/blog/models.py) and the
 * constants the views write into them. Times are seconds on one clock; money is
 * counted in paise, hundredths of a rupee, which is exactly the two decimal
 * places of the Payment table's amount column.
 */
module Records {
  import opened Wrappers

  type UserId = nat
  type PostId = nat
  type Time = int

  /** One post; `author` is the user the post belongs to. */
  datatype Post = Post(title: string, content: string, author: UserId, createdDate: Time, image: Option<string>)

  /** What a valid post form carries: the fields a user may set. */
  datatype PostFields = PostFields(title: string, content: string, image: Option<string>)

  /** One row of the Payment table. */
  datatype Payment = Payment(user: UserId, paymentId: string, amount: nat, timestamp: Time, status: string)

  /**
   * One row of the Subscription table. `planType` is any string: the choice list
   * declared on the column is not enforced when a row is saved.
   */
  datatype SubscriptionRow = SubscriptionRow(user: UserId, planType: string, startDate: Time, endDate: Time, isActive: bool)

  /** The renewal window that a successful confirmation grants: 30 days. */
  const RenewalWindow: int := 30 * 24 * 60 * 60

  /** The status every payment written by the confirmation flow carries. */
  const Completed: string := "completed"
}
