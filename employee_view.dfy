/** The employee view: the products assigned to the employee, split into
    completed and pending, with the chart series and the statistics. */
module EmployeeView {
  import opened Lists
  import opened Entities

  /** The fetched products whose id the employee's record lists. */
  function AssignedProducts(allProducts: seq<Product>, e: Employee): (r: seq<Product>)
    ensures forall p :: p in r <==> p in allProducts && p.id in e.products
  {
    SelectByIds(allProducts, e.products)
  }

  predicate IsCompleted(p: Product)
  {
    p.status == "completed"
  }

  predicate IsNotCompleted(p: Product)
  {
    p.status != "completed"
  }

  function Completed(products: seq<Product>): (r: seq<Product>)
    ensures forall p :: p in r <==> p in products && p.status == "completed"
  {
    Filter(products, IsCompleted)
  }

  /** Every product whose status is anything but exactly 'completed'. */
  function Pending(products: seq<Product>): (r: seq<Product>)
    ensures forall p :: p in r <==> p in products && p.status != "completed"
  {
    Filter(products, IsNotCompleted)
  }

  /** `[completed.length, pending.length]`: the two counts add up to the
      number of products. */
  function ChartSeries(products: seq<Product>): (r: seq<nat>)
    ensures |r| == 2 && r[0] + r[1] == |products|
    ensures r[0] == |Completed(products)| && r[1] == |Pending(products)|
  {
    FilterPartition(products, IsCompleted, IsNotCompleted);
    [|Completed(products)|, |Pending(products)|]
  }

  /** The two lists partition the products: no product is in both, each is
      in one, and each list keeps the product order. */
  lemma CompletedPendingPartition(products: seq<Product>)
    ensures forall p :: p in products ==> (p in Completed(products) <==> p !in Pending(products))
    ensures IsSubsequence(Completed(products), products) && IsSubsequence(Pending(products), products)
  {
    FilterIsSubsequence(products, IsCompleted);
    FilterIsSubsequence(products, IsNotCompleted);
  }

  /** The statistics: total orders and orders completed. */
  datatype Stats = Stats(total: nat, completed: nat)

  function StatsOf(products: seq<Product>): (s: Stats)
    ensures s.total == |products| && s.completed == ChartSeries(products)[0]
    ensures s.completed <= s.total
  {
    var series := ChartSeries(products);
    Stats(|products|, series[0])
  }
}
