/**
 * The reconcile step of the `deploy` task (gulpfile.babel.js, lines 147-164):
 * each descriptor is new or existing according to whether its function name
 * is in the remote function listing. Only presence of the name matters.
 */
module Reconciliation {
  import opened Wrappers
  import opened Discovery

  datatype Reconciled = Reconciled(added: seq<Handler>, updated: seq<Handler>)

  /**
   * `data.Functions.find(fn => fn.FunctionName === handler.functionName)`
   * finds an entry; `listing` holds the `FunctionName` of every listed
   * function, and an unset function name matches none of them.
   */
  predicate Listed(listing: seq<string>, h: Handler)
  {
    h.functionName.Some? && h.functionName.value in listing
  }

  /** The loop of lines 154-160 after all of `handlers`. */
  function Partition(handlers: seq<Handler>, listing: seq<string>): (r: Reconciled)
    ensures |r.added| + |r.updated| == |handlers|
  {
    if handlers == [] then Reconciled([], [])
    else
      var h := handlers[|handlers| - 1];
      var p := Partition(handlers[..|handlers| - 1], listing);
      if Listed(listing, h) then p.(updated := p.updated + [h])
      else p.(added := p.added + [h])
  }

  /** Every handler lands in exactly one of the two lists, as often as it occurs in the input. */
  lemma {:induction false} PartitionIsPermutation(handlers: seq<Handler>, listing: seq<string>)
    ensures var r := Partition(handlers, listing);
      multiset(r.added) + multiset(r.updated) == multiset(handlers)
  {
    if handlers != [] {
      var n := |handlers| - 1;
      PartitionIsPermutation(handlers[..n], listing);
      assert handlers == handlers[..n] + [handlers[n]];
    }
  }

  /** The handlers whose listing status is `listed`, in order: a filter from the front. */
  function Keep(handlers: seq<Handler>, listing: seq<string>, listed: bool): seq<Handler>
  {
    if handlers == [] then []
    else
      (if Listed(listing, handlers[0]) == listed then [handlers[0]] else []) + Keep(handlers[1..], listing, listed)
  }

  /** A handler is kept exactly when it is among the input and its listing status is `listed`. */
  lemma {:induction false} KeepMembers(handlers: seq<Handler>, listing: seq<string>, listed: bool)
    ensures forall h :: h in Keep(handlers, listing, listed) <==> h in handlers && Listed(listing, h) == listed
  {
    if handlers != [] {
      KeepMembers(handlers[1..], listing, listed);
      assert handlers == [handlers[0]] + handlers[1..];
    }
  }

  lemma {:induction false} KeepAppend(a: seq<Handler>, h: Handler, listing: seq<string>, listed: bool)
    ensures Keep(a + [h], listing, listed) == Keep(a, listing, listed) + (if Listed(listing, h) == listed then [h] else [])
  {
    if a == [] {
      assert [h][1..] == [];
    } else {
      assert (a + [h])[1..] == a[1..] + [h];
      KeepAppend(a[1..], h, listing, listed);
    }
  }

  /**
   * The partition is exact and order-preserving: `updated` is the listed
   * handlers and `added` the others, each in input order, so every handler
   * lands in exactly one of the two.
   */
  lemma {:induction false} PartitionIsFilter(handlers: seq<Handler>, listing: seq<string>)
    ensures Partition(handlers, listing).updated == Keep(handlers, listing, true)
    ensures Partition(handlers, listing).added == Keep(handlers, listing, false)
  {
    if handlers != [] {
      var n := |handlers| - 1;
      var prefix, h := handlers[..n], handlers[n];
      PartitionIsFilter(prefix, listing);
      KeepAppend(prefix, h, listing, true);
      KeepAppend(prefix, h, listing, false);
      assert prefix + [h] == handlers;
      var p := Partition(prefix, listing);
      if Listed(listing, h) {
        assert Partition(handlers, listing) == p.(updated := p.updated + [h]);
      } else {
        assert Partition(handlers, listing) == p.(added := p.added + [h]);
      }
    }
  }

  /**
   * Membership view of the partition: a handler is updated exactly when it
   * is listed and added exactly when it is not.
   */
  lemma PartitionMembers(handlers: seq<Handler>, listing: seq<string>)
    ensures forall h :: h in Partition(handlers, listing).updated <==> h in handlers && Listed(listing, h)
    ensures forall h :: h in Partition(handlers, listing).added <==> h in handlers && !Listed(listing, h)
  {
    PartitionIsFilter(handlers, listing);
    KeepMembers(handlers, listing, true);
    KeepMembers(handlers, listing, false);
  }

  /** The reconcile loop: push each handler onto `updateFunctions` or `newFunctions`. */
  method Reconcile(handlers: seq<Handler>, listing: seq<string>) returns (r: Reconciled)
    ensures r == Partition(handlers, listing)
  {
    var newFunctions: seq<Handler> := [];
    var updateFunctions: seq<Handler> := [];
    for i := 0 to |handlers|
      invariant Partition(handlers[..i], listing) == Reconciled(newFunctions, updateFunctions)
    {
      var handler := handlers[i];
      assert handlers[..i + 1][..i] == handlers[..i];
      if handler.functionName.Some? && handler.functionName.value in listing {
        updateFunctions := updateFunctions + [handler];
      } else {
        newFunctions := newFunctions + [handler];
      }
    }
    assert handlers[..|handlers|] == handlers;
    r := Reconciled(newFunctions, updateFunctions);
  }

}
