/**
 * The rows of the `users` schema the `src` side of the application works with:
 * roles OWNER and EXECUTOR, statuses in upper case.
 */
module SrcSchema {
  import opened Common

  const UserRoles: set<string> := {"OWNER", "EXECUTOR"}
  const BidStatuses: set<string> := {"PENDING", "ACCEPTED", "REJECTED", "CANCELLED"}

  /** A row of `users` (timestamps left out). */
  datatype User = User(id: string, email: string, name: Option<string>, role: string)

  /** A row of `bids` (timestamps and joined rows left out). */
  datatype Bid = Bid(
    id: string, amount: real, message: Option<string>, status: string,
    requestId: string, createdById: string)

  /** A row of `chats`, with the request and bid it was opened for, when there is one. */
  datatype Chat = Chat(id: string, requestId: Option<string>, bidId: Option<string>)

  /** A row of `messages` (timestamps and the joined sender left out). */
  datatype Message = Message(id: string, chatId: string, senderId: string, content: string)
}
