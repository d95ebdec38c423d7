/** The records the dashboard receives from its back end, reduced to the
    fields the modelled screens read. Identifiers are Mongo `_id` strings;
    money and counts are whole numbers. */
module Entities {
  import opened Base
  import opened Lists

  /** A customer; `orders` is absent when the back end omits it. */
  datatype Customer = Customer(id: string, name: string, phone: string, address: string,
                               orders: Option<seq<string>>)

  /** An order: its status string, the populated customer (absent when the
      reference is dangling), the paid flag, total and product ids. */
  datatype Order = Order(id: string, status: string, customerName: Option<string>,
                         paid: bool, total: int, productIds: seq<string>)

  /** A garment line of an order and the employees assigned to it. */
  datatype Product = Product(id: string, itemType: string, price: int, status: string,
                             assignedEmployees: Option<seq<string>>)

  /** An employee; `payment` is the running balance, `products` the ids of
      the garments assigned to them. */
  datatype Employee = Employee(id: string, name: string, phone: string, role: string,
                               payment: int, products: seq<string>)

  /** A fabric of the cloth catalogue. */
  datatype Cloth = Cloth(id: string, name: string, clothType: string, code: string,
                         color: string, productType: string)

  /** The colour family of a status badge. */
  datatype Tone = Yellow | Blue | Green | Purple | Grey

  /** The products whose id is listed, in the order of the product list:
      both the order details page and the employee view fetch every
      product and keep those whose `_id` is in the record's id list. */
  function SelectByIds(products: seq<Product>, ids: seq<string>): (r: seq<Product>)
    ensures forall p :: p in r <==> p in products && p.id in ids
    ensures |r| <= |products|
  {
    Filter(products, (p: Product) => p.id in ids)
  }

  /** The selection keeps the product list's order. */
  lemma SelectionKeepsOrder(products: seq<Product>, ids: seq<string>)
    ensures IsSubsequence(SelectByIds(products, ids), products)
  {
    FilterIsSubsequence(products, (p: Product) => p.id in ids);
  }
}
