/** The JSON records the server sends and the web client reads. */
module Wire {

  /** One element of the "transactions" array of GET /api/transactions
      (and the "transaction" object of a create or update reply).  The
      amount is in cents. */
  datatype TransactionJson = TransactionJson(
    id: nat,
    date: string,
    categoryId: int,
    categoryName: string,
    categoryIcon: string,
    description: string,
    amount: int,
    kind: string)

  /** One element of the "categories" array of GET /api/categories. */
  datatype CategoryJson = CategoryJson(id: nat, name: string, kind: string, icon: string)
}
