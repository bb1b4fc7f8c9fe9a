/** The faults a command body can raise, as far as the dispatcher tells them apart:
    a connectivity fault (`HttpRequestException`), an aggregate of faults
    (`AggregateException`, whose direct inner faults are inspected) and every other
    fault (`Exception`). Every fault carries the message text it reports. */
module Faults {

  datatype Fault =
    | Http(message: string)
    | Aggregate(inners: seq<Fault>, message: string)
    | Other(message: string)

  /** What `FirstOrDefault` yields: the first matching element, or nothing. */
  datatype Found = Found(inner: Fault) | NotFound

  /** Some DIRECT inner fault of an aggregate is a connectivity fault.
      Connectivity faults nested deeper, inside an inner aggregate, do not count. */
  predicate HasConnectivityInner(inners: seq<Fault>) {
    exists i | 0 <= i < |inners| :: inners[i].Http?
  }

  /** A fault is a connectivity failure when it is one itself
      or when it bundles one among its direct inner faults. */
  predicate IsConnectivity(f: Fault) {
    f.Http? || (f.Aggregate? && HasConnectivityInner(f.inners))
  }

  /** The first direct inner fault that is a connectivity fault, if there is one. */
  function FirstConnectivity(inners: seq<Fault>): (r: Found)
    ensures r.NotFound? <==> !HasConnectivityInner(inners)
    ensures r.Found? ==>
      exists i | 0 <= i < |inners| :: inners[i] == r.inner && r.inner.Http? && !HasConnectivityInner(inners[..i])
  {
    if inners == [] then NotFound
    else if inners[0].Http? then
      assert inners[..0] == [];
      Found(inners[0])
    else
      var r := FirstConnectivity(inners[1..]);
      assert HasConnectivityInner(inners) ==> HasConnectivityInner(inners[1..]) by {
        if HasConnectivityInner(inners) {
          var i :| 0 <= i < |inners| && inners[i].Http?;
          assert inners[1..][i - 1].Http?;
        }
      }
      if r.Found? then
        var i :| 0 <= i < |inners[1..]| && inners[1..][i] == r.inner && r.inner.Http? && !HasConnectivityInner(inners[1..][..i]);
        assert inners[..i + 1] == [inners[0]] + inners[1..][..i];
        assert inners[i + 1] == r.inner;
        r
      else
        r
  }
}
