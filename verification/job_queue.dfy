// The FIFO of job ids waiting for an agent (cloud/internal/queue/inmemory.go).
module Queue {
  import opened JobModel

  datatype Taken = Got(id: JobId) | Empty | Broken

  // The sequence without its first occurrence of x.
  function Without(items: seq<JobId>, x: JobId): seq<JobId> {
    if items == [] then []
    else if items[0] == x then items[1..]
    else [items[0]] + Without(items[1..], x)
  }

  lemma {:induction false} WithoutAt(items: seq<JobId>, x: JobId, i: nat)
    requires i < |items| && items[i] == x && x !in items[..i]
    ensures Without(items, x) == items[..i] + items[i + 1..]
  {
    if i > 0 {
      assert items[0] in items[..i];
      assert items[1..][..i - 1] == items[..i][1..];
      WithoutAt(items[1..], x, i - 1);
      assert items[1..][i..] == items[i + 1..];
      assert [items[0]] + items[1..][..i - 1] == items[..i];
    }
  }

  lemma {:induction false} WithoutTakesOne(items: seq<JobId>, x: JobId)
    ensures multiset(Without(items, x)) == multiset(items) - multiset{x}
  {
    if items != [] {
      assert items == [items[0]] + items[1..];
      WithoutTakesOne(items[1..], x);
    }
  }

  class JobQueue {
    var items: seq<JobId>

    constructor ()
      ensures items == []
    {
      items := [];
    }

    method Enqueue(id: JobId, fails: bool) returns (ok: bool)
      modifies this
      ensures ok <==> id != "" && !fails
      ensures items == if ok then old(items) + [id] else old(items)
    {
      if id == "" || fails { return false; }
      items := items + [id];
      return true;
    }

    method Dequeue(fails: bool) returns (result: Taken)
      modifies this
      ensures result == if fails then Broken else if old(items) == [] then Empty else Got(old(items)[0])
      ensures items == if result.Got? then old(items)[1..] else old(items)
    {
      if fails { return Broken; }
      if |items| == 0 { return Empty; }
      var id := items[0];
      items := items[1..];
      return Got(id);
    }

    method Size() returns (n: nat)
      ensures n == |items|
    {
      return |items|;
    }

    method Remove(id: JobId) returns (ok: bool)
      modifies this
      ensures ok <==> id != "" && id in old(items)
      ensures items == if ok then Without(old(items), id) else old(items)
      ensures ok ==> multiset(items) == multiset(old(items)) - multiset{id}
    {
      if id == "" { return false; }
      for i := 0 to |items|
        invariant items == old(items)
        invariant id !in items[..i]
      {
        if items[i] == id {
          WithoutAt(items, id, i);
          WithoutTakesOne(items, id);
          items := items[..i] + items[i + 1..];
          return true;
        }
      }
      return false;
    }
  }
}
