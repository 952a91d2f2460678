/** What the list endpoints share: the rows a filter keeps, in the order the query asks for,
    cut into pages by `skip = (page - 1) * limit` and `take = limit`, with the page count
    `Math.ceil(total / take)` reported beside them. */
module Listing {
  import opened Types

  predicate Distinct<K(==)>(xs: seq<K>)
  {
    forall i, j | 0 <= i < j < |xs| :: xs[i] != xs[j]
  }

  /** `order` lists every key of the table exactly once: the order the query sorts the rows in.
      The sort keys (creation times, priorities, due dates) are not part of the model, so any
      such order stands for the database's. */
  predicate Enumerates<K(==,!new)>(order: seq<K>, keys: set<K>)
  {
    Distinct(order) && (forall k | k in order :: k in keys) && (forall k | k in keys :: k in order)
  }

  /** The keys of `order` whose rows the `where` clause keeps, in order. */
  function Filter<K(==,!new)>(order: seq<K>, keep: K -> bool): (r: seq<K>)
    ensures forall k :: k in r <==> k in order && keep(k)
    ensures Distinct(order) ==> Distinct(r)
  {
    if |order| == 0 then []
    else if keep(order[0]) then [order[0]] + Filter(order[1..], keep)
    else Filter(order[1..], keep)
  }

  /** `findFirst`: the first key of `order` whose row the `where` clause keeps. */
  function First<K(==,!new)>(order: seq<K>, keep: K -> bool): (r: Option<K>)
    ensures r.Some? ==> r.value in order && keep(r.value)
    ensures r.None? ==> forall k | k in order :: !keep(k)
  {
    var hits := Filter(order, keep);
    if |hits| == 0 then None else Some(hits[0])
  }

  lemma {:induction false} DistinctCard<K>(xs: seq<K>)
    requires Distinct(xs)
    ensures |set x | x in xs| == |xs|
  {
    if |xs| > 0 {
      DistinctCard(xs[1..]);
      assert (set x | x in xs) == {xs[0]} + (set x | x in xs[1..]);
      assert xs[0] !in xs[1..];
    }
  }

  /** The keys of `keys` that `keep` holds of. */
  function Kept<K(!new)>(keys: set<K>, keep: K -> bool): (r: set<K>)
    ensures forall k :: k in r <==> k in keys && keep(k)
  {
    set k | k in keys && keep(k)
  }

  /** The `count` beside a list query is the number of rows the filter keeps: the filtered
      order holds each of them once. */
  lemma FilterCount<K(!new)>(order: seq<K>, keys: set<K>, keep: K -> bool)
    requires Enumerates(order, keys)
    ensures |Filter(order, keep)| == |Kept(keys, keep)|
  {
    var r := Filter(order, keep);
    DistinctCard(r);
    assert (set x | x in r) == Kept(keys, keep);
  }

  /** The text `if (v)` puts in a `where` clause: a non-empty single string. (A composite value
      is truthy too, and goes in as it is; see `ClientTakes`.) */
  function FilterText(v: Option<QueryValue>): (r: Option<string>)
    ensures r.Some? <==> v.Some? && v.value.Single? && v.value.s != ""
    ensures r.Some? ==> r.value == v.value.s
  {
    if v.Some? && v.value.Single? && v.value.s != "" then Some(v.value.s) else None
  }

  /** A filter the database client takes in a `where` clause: absent, or a single string. An
      array or object where it expects a string makes it refuse the query. */
  predicate ClientTakes(v: Option<QueryValue>)
  {
    v.None? || v.value.Single?
  }

  /** `findMany({ skip, take })` on rows already filtered and ordered. */
  function Page<T>(xs: seq<T>, skip: nat, take: nat): (r: seq<T>)
    ensures |r| <= take
    ensures skip >= |xs| ==> r == []
    ensures skip < |xs| ==> |r| == if skip + take <= |xs| then take else |xs| - skip
    ensures forall i | 0 <= i < |r| :: r[i] == xs[skip + i]
  {
    if skip >= |xs| then []
    else if skip + take <= |xs| then xs[skip..skip + take]
    else xs[skip..]
  }

  /** A paging option as the list models receive it: the raw query string, which `parseInt`
      reads for `take` and `currentPage`, and which `-` and `*` convert with `Number()` when
      they compute `skip`. `number` is None when that conversion gives NaN or an infinity (a
      query string with trailing text, or a repeated parameter). */
  datatype Arg = Arg(parsed: int, number: Option<real>)

  /** An option written as a plain integer: both readings agree. */
  predicate Plain(a: Option<Arg>)
  {
    a.None? || a.value.number == Some(a.value.parsed as real)
  }

  /** `parseInt(page)`, with the default page 1. */
  function PageOr(page: Option<Arg>): int
  {
    if page.Some? then page.value.parsed else 1
  }

  /** `parseInt(limit)`, with the endpoint's default. */
  function LimitOr(limit: Option<Arg>, default: int): int
  {
    if limit.Some? then limit.value.parsed else default
  }

  /** What `-` and `*` see: the option's `Number()` value, or the default number. */
  function NumberOr(a: Option<Arg>, default: int): Option<real>
  {
    if a.Some? then a.value.number else Some(default as real)
  }

  /** What every list model needs of its paging options: a page from 1 on and a limit of at
      least 1 by `parseInt` (the controllers reject anything else before the model is called). */
  predicate PagingOk(page: Option<Arg>, limit: Option<Arg>)
  {
    (page.None? || page.value.parsed >= 1) && (limit.None? || limit.value.parsed >= 1)
  }

  /** `(page - 1) * limit` computed on the `Number()` values; None when it is NaN. */
  function SkipNumber(page: Option<Arg>, limit: Option<Arg>, default: int): Option<real>
  {
    var p, l := NumberOr(page, 1), NumberOr(limit, default);
    if p.None? || l.None? then None else Some((p.value - 1.0) * l.value)
  }

  /** A number the database client takes for `skip`. */
  predicate WholeFromZero(x: real)
  {
    x >= 0.0 && x == x.Floor as real
  }

  /** `skip` as the database client takes it: `(page - 1) * limit` when that is a whole number
      from 0 on. Anything else (NaN, an infinity, a fraction, a negative number) is None: the
      client refuses the query. */
  function SkipOf(page: Option<Arg>, limit: Option<Arg>, default: int): (r: Option<nat>)
    ensures r.Some? <==> SkipNumber(page, limit, default).Some? && WholeFromZero(SkipNumber(page, limit, default).value)
    ensures r.Some? ==> r.value as real == SkipNumber(page, limit, default).value
  {
    var x := SkipNumber(page, limit, default);
    if x.Some? && WholeFromZero(x.value) then Some(x.value.Floor) else None
  }

  /** Options written as plain integers skip `Skip(page, limit)` rows. */
  lemma PlainSkip(page: Option<Arg>, limit: Option<Arg>, default: int)
    requires PagingOk(page, limit) && default >= 1 && Plain(page) && Plain(limit)
    ensures SkipOf(page, limit, default) == Some(Skip(PageOr(page), LimitOr(limit, default)))
  {
    var p, l := PageOr(page), LimitOr(limit, default);
    assert NumberOr(page, 1) == Some(p as real) && NumberOr(limit, default) == Some(l as real);
    assert (p as real) - 1.0 == (p - 1) as real;
    RealProduct(p - 1, l);
    var x := SkipNumber(page, limit, default).value;
    assert x == ((p - 1) * l) as real;
    assert x.Floor == (p - 1) * l;
  }

  lemma RealProduct(a: int, b: int)
    ensures (a * b) as real == (a as real) * (b as real)
  {
  }

  /** `(page - 1) * limit` for a page numbered from 1. */
  function Skip(page: int, limit: int): nat
    requires page >= 1 && limit >= 1
  {
    (page - 1) * limit
  }

  /** `Math.ceil(total / take)`. */
  function TotalPages(total: nat, take: int): (r: nat)
    requires take >= 1
    ensures (r - 1) * take < total <= r * take
  {
    if total % take == 0 then total / take else total / take + 1
  }

  /** Every row is on exactly one page: row `i` is entry `i % limit` of page `i / limit + 1`,
      and that page number is within `totalPages`. */
  lemma PageLocates<T>(xs: seq<T>, limit: int, i: int)
    requires limit >= 1 && 0 <= i < |xs|
    ensures 1 <= i / limit + 1 <= TotalPages(|xs|, limit)
    ensures i % limit < limit && Skip(i / limit + 1, limit) + i % limit == i
    ensures var p := Page(xs, Skip(i / limit + 1, limit), limit);
      i % limit < |p| && p[i % limit] == xs[i]
  {
    RowOfPage(i, limit);
    SlotOnPage(xs, limit, i / limit + 1, i % limit);
  }

  /** Row `i` is entry `i % limit` of page `i / limit + 1`. */
  lemma RowOfPage(i: nat, limit: int)
    requires limit >= 1
    ensures i / limit >= 0 && 0 <= i % limit < limit
    ensures Skip(i / limit + 1, limit) + i % limit == i
  {
    var q, r := i / limit, i % limit;
    assert i == q * limit + r;
  }

  /** Entry `j` of page `page` is row `(page - 1) * limit + j` whenever that row exists, and
      that page number is within `totalPages`. */
  lemma SlotOnPage<T>(xs: seq<T>, limit: int, page: int, j: int)
    requires limit >= 1 && page >= 1 && 0 <= j < limit && Skip(page, limit) + j < |xs|
    ensures page <= TotalPages(|xs|, limit)
    ensures var p := Page(xs, Skip(page, limit), limit);
      j < |p| && p[j] == xs[Skip(page, limit) + j]
  {
    var n := TotalPages(|xs|, limit);
    assert (page - 1) * limit < n * limit;
    MulCancel(page - 1, n, limit);
  }

  lemma MulMonotone(a: int, b: int, c: int)
    requires a <= b && c >= 0
    ensures a * c <= b * c
  {
  }

  lemma MulCancel(a: int, b: int, c: int)
    requires c > 0 && a * c < b * c
    ensures a < b
  {
  }

  /** A page past `totalPages` is empty. */
  lemma PagePastEndEmpty<T>(xs: seq<T>, page: int, limit: int)
    requires limit >= 1 && page > TotalPages(|xs|, limit)
    ensures Page(xs, Skip(page, limit), limit) == []
  {
    MulMonotone(TotalPages(|xs|, limit), page - 1, limit);
  }
}
