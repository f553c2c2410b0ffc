/**
 * The server's records (back-end/internal/models). Prices are integer cents, as the
 * DECIMAL(10,2) column stores them; dates are day numbers; timestamps are seconds.
 */
module Models {

  /** models.User, and equally one row of the users table. */
  datatype User = User(
    id: int,
    name: string,
    email: string,
    passwordHash: string,
    thirdParty: string,
    createdAt: int,
    updatedAt: int)

  /** One row of the subscriptions table. */
  datatype SubRow = SubRow(
    id: int,
    name: string,
    category: string,
    priceCents: int,
    billingCycle: string,
    nextBillingDate: int,
    userId: int,
    isActive: bool,
    createdAt: int,
    updatedAt: int)

  /** models.Subscription: what the API returns; the owner is named by email, not by id. */
  datatype Subscription = Subscription(
    id: int,
    name: string,
    priceCents: int,
    billingCycle: string,
    nextBillingDate: int,
    email: string,
    category: string,
    isActive: bool,
    createdAt: int,
    updatedAt: int)

  /** models.CreateSubscriptionRequest, the body of create and update requests. */
  datatype SubscriptionRequest = SubscriptionRequest(
    name: string,
    priceCents: int,
    category: string,
    billingCycle: string,
    nextBillingDate: int)

  /** models.RegisterReq. */
  datatype RegisterReq = RegisterReq(email: string, password: string, name: string)

  /** models.LoginRequest. */
  datatype LoginRequest = LoginRequest(email: string, password: string)

  /** The fields of models.GoogleUser that the server reads. */
  datatype GoogleUser = GoogleUser(email: string, name: string)
}
