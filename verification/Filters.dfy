/** Event filters and their combinators; an absent filter is a no-op. */
module Filters {
  import opened Wrappers
  import opened Objects

  datatype Op = OpAdd | OpUpdate | OpDelete

  type Filter = (Op, Option<Resource>, Option<Resource>) -> bool

  function All(filters: seq<Option<Filter>>, op: Op, prev: Option<Resource>, obj: Option<Resource>): bool {
    if filters == [] then true
    else if filters[0].Some? && !filters[0].value(op, prev, obj) then false
    else All(filters[1..], op, prev, obj)
  }

  function Any(filters: seq<Option<Filter>>, op: Op, prev: Option<Resource>, obj: Option<Resource>): bool {
    if filters == [] then false
    else if filters[0].Some? && filters[0].value(op, prev, obj) then true
    else Any(filters[1..], op, prev, obj)
  }

  function And(filters: seq<Option<Filter>>): Filter {
    (op, prev, obj) => All(filters, op, prev, obj)
  }

  function Or(filters: seq<Option<Filter>>): Filter {
    (op, prev, obj) => Any(filters, op, prev, obj)
  }

  function Not(filter: Option<Filter>): Filter {
    (op, prev, obj) => filter.None? || !filter.value(op, prev, obj)
  }

  function Combine(filters: seq<Option<Filter>>): Option<Filter> {
    if filters == [] then None else Some(And(filters))
  }

  /** What a possibly absent filter lets pass. */
  predicate Passes(filter: Option<Filter>, op: Op, prev: Option<Resource>, obj: Option<Resource>) {
    filter.None? || filter.value(op, prev, obj)
  }

  function ResourceVersionChanged(): Filter {
    (op: Op, prev, obj) =>
      var before, after := MetaOf(prev), MetaOf(obj);
      op != OpUpdate || before.None? || after.None? || before.value.version != after.value.version
  }

  /** Whether an update is the replay of an unchanged resource by the periodic re-sync. */
  predicate IsResync(prev: Option<Resource>, obj: Option<Resource>) {
    var before, after := MetaOf(prev), MetaOf(obj);
    before.Some? && after.Some? && before.value.version == after.value.version
  }

  /** An update of a resource with metadata before and after, in the same version. */
  predicate Unchanged(op: Op, prev: Option<Resource>, obj: Option<Resource>) {
    && op == OpUpdate
    && prev.Some? && prev.value.meta.Some? && obj.Some? && obj.value.meta.Some?
    && prev.value.meta.value.version == obj.value.meta.value.version
  }

  /** The filter drops exactly the updates without a change; it passes adds and deletes, and what has no metadata. */
  lemma VersionFilterDropsIff(op: Op, prev: Option<Resource>, obj: Option<Resource>)
    ensures !ResourceVersionChanged()(op, prev, obj) <==> Unchanged(op, prev, obj)
  {
  }

  lemma {:induction false} AllPass(
    filters: seq<Option<Filter>>, op: Op, prev: Option<Resource>, obj: Option<Resource>
  )
    ensures And(filters)(op, prev, obj) <==> forall f | f in filters :: Passes(f, op, prev, obj)
    ensures Passes(Combine(filters), op, prev, obj) <==> forall f | f in filters :: Passes(f, op, prev, obj)
  {
    if filters != [] {
      AllPass(filters[1..], op, prev, obj);
      assert forall f :: f in filters <==> f == filters[0] || f in filters[1..];
      assert Passes(filters[0], op, prev, obj) <==> filters[0].None? || filters[0].value(op, prev, obj);
    }
  }

  lemma {:induction false} AnyPasses(
    filters: seq<Option<Filter>>, op: Op, prev: Option<Resource>, obj: Option<Resource>
  )
    ensures Or(filters)(op, prev, obj) <==> exists f :: f in filters && f.Some? && f.value(op, prev, obj)
  {
    if filters != [] {
      AnyPasses(filters[1..], op, prev, obj);
      assert filters == [filters[0]] + filters[1..];
    }
  }

  /** A chain inside a chain is one long chain, and absent filters in it do not matter. */
  lemma AndFlattens(
    before: seq<Option<Filter>>, inner: seq<Option<Filter>>, after: seq<Option<Filter>>,
    op: Op, prev: Option<Resource>, obj: Option<Resource>
  )
    ensures And(before + [Combine(inner)] + after)(op, prev, obj) == And(before + inner + after)(op, prev, obj)
  {
    AllPass(before + [Combine(inner)] + after, op, prev, obj);
    AllPass(before + inner + after, op, prev, obj);
    AllPass(inner, op, prev, obj);
    assert Combine(inner) in before + [Combine(inner)] + after;
  }

  /** A negated filter passes what the filter drops, negated again it is the filter; an absent one stays a no-op. */
  lemma NotIsComplement(
    filter: Filter, filters: seq<Option<Filter>>, op: Op, prev: Option<Resource>, obj: Option<Resource>
  )
    ensures Not(Some(filter))(op, prev, obj) != filter(op, prev, obj)
    ensures Not(Some(Not(Some(filter))))(op, prev, obj) == filter(op, prev, obj)
    ensures And([Some(Not(None))] + filters)(op, prev, obj) == And([None] + filters)(op, prev, obj)
                                                            == And(filters)(op, prev, obj)
  {
    assert ([Some(Not(None))] + filters)[1..] == filters == ([None] + filters)[1..];
  }

  function Negated(filters: seq<Option<Filter>>): seq<Option<Filter>> {
    seq(|filters|, i requires 0 <= i < |filters| => if filters[i].None? then None else Some(Not(filters[i])))
  }

  /**
   Negating a chain is the alternative of the negated filters, and negating an alternative is the chain of
   them, absent ones staying absent.
   */
  lemma {:induction false} DeMorgan(
    filters: seq<Option<Filter>>, op: Op, prev: Option<Resource>, obj: Option<Resource>
  )
    ensures Not(Some(And(filters)))(op, prev, obj) == Or(Negated(filters))(op, prev, obj)
    ensures Not(Some(Or(filters)))(op, prev, obj) == And(Negated(filters))(op, prev, obj)
  {
    if filters != [] {
      DeMorgan(filters[1..], op, prev, obj);
      assert Negated(filters)[1..] == Negated(filters[1..]);
    }
  }
}
