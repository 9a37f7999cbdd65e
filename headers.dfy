/** Header composition of the notification sender: the override rule of
    `httpHeaderAdd`, the extra-header pass and the byte accounting
    (src/lib/rest/httpRequestSend.cpp). */
module Headers {
  import opened Options
  import opened Strings

  /** One HTTP header; `Line` is the text curl receives for it. */
  datatype Header = Header(name: string, value: string)

  function Line(h: Header): string
  {
    h.name + ": " + h.value
  }

  /** A `std::map<std::string, std::string>` of extra headers: its entries in
      iteration order, which is strictly ascending key order. */
  ghost predicate IsHeaderMap(m: seq<Header>)
  {
    forall i, j :: 0 <= i < j < |m| ==> LexLess(m[i].name, m[j].name)
  }

  /** `extraHeaders.find(name)`: an exact, case-sensitive key match. */
  function Find(m: seq<Header>, name: string): (r: Option<string>)
    ensures r.None? <==> forall i :: 0 <= i < |m| ==> m[i].name != name
    ensures r.Some? ==> exists i :: 0 <= i < |m| && m[i] == Header(name, r.value)
  {
    if m == [] then None
    else if m[0].name == name then Some(m[0].value)
    else Find(m[1..], name)
  }

  /** In a map, `find` returns the value stored under the key. */
  lemma FindInMap(m: seq<Header>, i: nat)
    requires IsHeaderMap(m) && i < |m|
    ensures Find(m, m[i].name) == Some(m[i].value)
  {
    LexLessIrreflexive(m[i].name);
    var r := Find(m, m[i].name);
    var j :| 0 <= j < |m| && m[j] == Header(m[i].name, r.value);
  }

  /** The header `httpHeaderAdd` emits for a standard header whose computed
      default is `d`: an extra header with exactly the same name replaces the
      value. */
  function Resolve(d: Header, extras: seq<Header>): Header
  {
    match Find(extras, d.name)
    case Some(v) => Header(d.name, v)
    case None => d
  }

  function ResolveAll(ds: seq<Header>, extras: seq<Header>): (r: seq<Header>)
    ensures |r| == |ds|
  {
    if ds == [] then [] else ResolveAll(ds[..|ds| - 1], extras) + [Resolve(ds[|ds| - 1], extras)]
  }

  lemma {:induction false} ResolveAllAt(ds: seq<Header>, extras: seq<Header>)
    ensures forall i :: 0 <= i < |ds| ==> ResolveAll(ds, extras)[i] == Resolve(ds[i], extras)
    decreases |ds|
  {
    if ds != [] {
      ResolveAllAt(ds[..|ds| - 1], extras);
    }
  }

  /** The lower-cased names that the standard headers `ds` mark as used. */
  function ConsumedBy(ds: seq<Header>, extras: seq<Header>): set<string>
  {
    if ds == [] then {}
    else
      var last := ds[|ds| - 1];
      ConsumedBy(ds[..|ds| - 1], extras) + (if Find(extras, last.name).Some? then {Lower(last.name)} else {})
  }

  /** A standard header that finds an extra header under its exact name
      marks its lower-cased name used. */
  lemma {:induction false} ConsumedByIntro(ds: seq<Header>, extras: seq<Header>, k: nat)
    requires k < |ds| && Find(extras, ds[k].name).Some?
    ensures Lower(ds[k].name) in ConsumedBy(ds, extras)
    decreases |ds|
  {
    if k < |ds| - 1 {
      var front := ds[..|ds| - 1];
      assert front[k] == ds[k];
      ConsumedByIntro(front, extras, k);
    }
  }

  /** Every used name comes from such a standard header, at position `k`. */
  lemma {:induction false} ConsumedByWitness(ds: seq<Header>, extras: seq<Header>, l: string) returns (k: nat)
    requires l in ConsumedBy(ds, extras)
    ensures k < |ds| && Find(extras, ds[k].name).Some? && Lower(ds[k].name) == l
    decreases |ds|
  {
    var front := ds[..|ds| - 1];
    if l in ConsumedBy(front, extras) {
      k := ConsumedByWitness(front, extras, l);
      assert front[k] == ds[k];
    } else {
      k := |ds| - 1;
    }
  }

  /** A lower-cased name is marked used exactly when some standard header
      with that lower-cased name found an extra header under its exact name. */
  lemma ConsumedByMembers(ds: seq<Header>, extras: seq<Header>, l: string)
    ensures l in ConsumedBy(ds, extras)
      <==> exists k :: 0 <= k < |ds| && Find(extras, ds[k].name).Some? && Lower(ds[k].name) == l
  {
    if l in ConsumedBy(ds, extras) {
      var k := ConsumedByWitness(ds, extras, l);
    }
    if exists k :: 0 <= k < |ds| && Find(extras, ds[k].name).Some? && Lower(ds[k].name) == l {
      var k :| 0 <= k < |ds| && Find(extras, ds[k].name).Some? && Lower(ds[k].name) == l;
      ConsumedByIntro(ds, extras, k);
    }
  }

  /** The extra headers, in iteration order, whose lower-cased name is not in `used`. */
  function Unconsumed(extras: seq<Header>, used: set<string>): seq<Header>
  {
    if extras == [] then []
    else
      var last := extras[|extras| - 1];
      Unconsumed(extras[..|extras| - 1], used) + (if Lower(last.name) in used then [] else [last])
  }

  /** The extra-header pass emits exactly the entries whose lower-cased name
      is not used: a used name never reaches the list a second time. */
  lemma {:induction false} UnconsumedMembers(extras: seq<Header>, used: set<string>, h: Header)
    ensures h in Unconsumed(extras, used) <==> h in extras && Lower(h.name) !in used
    decreases |extras|
  {
    if extras != [] {
      var front := extras[..|extras| - 1];
      UnconsumedMembers(front, used, h);
      assert extras == front + [extras[|extras| - 1]];
    }
  }

  lemma UnconsumedStep(extras: seq<Header>, i: nat, used: set<string>)
    requires i < |extras|
    ensures Unconsumed(extras[..i + 1], used)
      == Unconsumed(extras[..i], used) + (if Lower(extras[i].name) in used then [] else [extras[i]])
  {
    assert extras[..i + 1][..i] == extras[..i];
  }

  /** The complete header list: every standard header with its override
      applied, then every extra header not consumed by an override. */
  function Compose(ds: seq<Header>, extras: seq<Header>): seq<Header>
  {
    ResolveAll(ds, extras) + Unconsumed(extras, ConsumedBy(ds, extras))
  }

  /** The bytes the header lines take. */
  function TotalSize(hs: seq<Header>): nat
  {
    if hs == [] then 0 else TotalSize(hs[..|hs| - 1]) + |Line(hs[|hs| - 1])|
  }

  lemma {:induction false} TotalSizeAppend(a: seq<Header>, b: seq<Header>)
    ensures TotalSize(a + b) == TotalSize(a) + TotalSize(b)
    decreases |b|
  {
    if b != [] {
      var front := b[..|b| - 1];
      assert (a + b)[..|a + b| - 1] == a + front;
      calc {
        TotalSize(a + b);
        TotalSize(a + front) + |Line(b[|b| - 1])|;
        { TotalSizeAppend(a, front); }
        TotalSize(a) + TotalSize(front) + |Line(b[|b| - 1])|;
      }
    } else {
      assert a + b == a;
    }
  }

  /** How many headers in `hs` have the lower-cased name `l`. */
  function Count(hs: seq<Header>, l: string): nat
  {
    if hs == [] then 0
    else Count(hs[..|hs| - 1], l) + (if Lower(hs[|hs| - 1].name) == l then 1 else 0)
  }

  lemma {:induction false} CountAppend(a: seq<Header>, b: seq<Header>, l: string)
    ensures Count(a + b, l) == Count(a, l) + Count(b, l)
    decreases |b|
  {
    if b != [] {
      var front := b[..|b| - 1];
      assert (a + b)[..|a + b| - 1] == a + front;
      calc {
        Count(a + b, l);
        Count(a + front, l) + (if Lower(b[|b| - 1].name) == l then 1 else 0);
        { CountAppend(a, front, l); }
        Count(a, l) + Count(front, l) + (if Lower(b[|b| - 1].name) == l then 1 else 0);
      }
    } else {
      assert a + b == a;
    }
  }

  lemma {:induction false} CountAbsent(hs: seq<Header>, l: string)
    requires forall h :: h in hs ==> Lower(h.name) != l
    ensures Count(hs, l) == 0
    decreases |hs|
  {
    if hs != [] {
      assert hs[|hs| - 1] in hs;
      CountAbsent(hs[..|hs| - 1], l);
    }
  }

  /** No lower-cased name occurs twice. */
  ghost predicate NamesDistinct(hs: seq<Header>)
  {
    forall l :: Count(hs, l) <= 1
  }

  /** Every header counts towards its own lower-cased name. */
  lemma {:induction false} CountPresent(hs: seq<Header>, k: nat)
    requires k < |hs|
    ensures Count(hs, Lower(hs[k].name)) >= 1
    decreases |hs|
  {
    if k < |hs| - 1 {
      CountPresent(hs[..|hs| - 1], k);
    }
  }

  /** With distinct names, a lower-cased name determines the position. */
  lemma DistinctPositions(hs: seq<Header>, j: nat, k: nat)
    requires NamesDistinct(hs) && j < |hs| && k < |hs|
    requires Lower(hs[j].name) == Lower(hs[k].name)
    ensures j == k
  {
    if j != k {
      var (a, b) := if j < k then (j, k) else (k, j);
      assert hs[..b] + hs[b..] == hs;
      CountAppend(hs[..b], hs[b..], Lower(hs[b].name));
      CountPresent(hs[..b], a);
      CountPresent(hs[b..], 0);
      assert false;
    }
  }

  /** Overrides keep the names, so they keep the counts. */
  lemma {:induction false} CountResolveAll(ds: seq<Header>, extras: seq<Header>, l: string)
    ensures Count(ResolveAll(ds, extras), l) == Count(ds, l)
    decreases |ds|
  {
    if ds != [] {
      var r := ResolveAll(ds, extras);
      CountResolveAll(ds[..|ds| - 1], extras, l);
      assert r[..|r| - 1] == ResolveAll(ds[..|ds| - 1], extras);
    }
  }

  /** An extra header whose name is exactly that of a standard header replaces
      it: the list holds one header of that name (ignoring case), in the
      standard header's place, with the extra header's value. */
  lemma OverrideAppearsOnce(ds: seq<Header>, extras: seq<Header>, k: nat)
    requires NamesDistinct(ds) && k < |ds|
    requires Find(extras, ds[k].name).Some?
    ensures Compose(ds, extras)[k] == Header(ds[k].name, Find(extras, ds[k].name).value)
    ensures Count(Compose(ds, extras), Lower(ds[k].name)) == 1
  {
    var resolved := ResolveAll(ds, extras);
    var consumed := ConsumedBy(ds, extras);
    var l := Lower(ds[k].name);
    ResolveAllAt(ds, extras);
    CountPresent(ds, k);
    CountResolveAll(ds, extras, l);
    ConsumedByMembers(ds, extras, l);
    forall h | h in Unconsumed(extras, consumed) ensures Lower(h.name) != l {
      UnconsumedMembers(extras, consumed, h);
    }
    CountAbsent(Unconsumed(extras, consumed), l);
    CountAppend(resolved, Unconsumed(extras, consumed), l);
  }

  /** After the standard headers come exactly the extra headers that no
      override consumed: an extra header reaches that part of the list iff no
      standard header that found an extra header under its exact name has
      `h`'s name, ignoring case. */
  lemma ExtrasAppended(ds: seq<Header>, extras: seq<Header>, h: Header)
    ensures |Compose(ds, extras)| >= |ds|
    ensures h in Compose(ds, extras)[|ds|..]
      <==> (h in extras &&
           !exists k :: 0 <= k < |ds| && Find(extras, ds[k].name).Some? && Lower(ds[k].name) == Lower(h.name))
  {
    var consumed := ConsumedBy(ds, extras);
    assert Compose(ds, extras)[|ds|..] == Unconsumed(extras, consumed);
    UnconsumedMembers(extras, consumed, h);
    ConsumedByMembers(ds, extras, Lower(h.name));
  }

  /** An extra header that matches a standard name only ignoring case is no
      override: when no key equals the standard name exactly, the standard
      header keeps its place and default value, and the extra header is still
      appended after the standard headers. */
  lemma CaseVariantKept(ds: seq<Header>, extras: seq<Header>, k: nat, e: Header)
    requires NamesDistinct(ds) && k < |ds|
    requires Find(extras, ds[k].name).None?
    requires e in extras && Lower(e.name) == Lower(ds[k].name)
    ensures Compose(ds, extras)[k] == ds[k]
    ensures e in Compose(ds, extras)[|ds|..]
  {
    ResolveAllAt(ds, extras);
    assert Compose(ds, extras)[k] == ResolveAll(ds, extras)[k];
    forall j | 0 <= j < |ds| && Find(extras, ds[j].name).Some?
      ensures Lower(ds[j].name) != Lower(e.name)
    {
      if Lower(ds[j].name) == Lower(e.name) {
        DistinctPositions(ds, j, k);
      }
    }
    ExtrasAppended(ds, extras, e);
  }

  /** With no extra headers the list is exactly the computed defaults. */
  lemma {:induction false} NoExtrasKeepsDefaults(ds: seq<Header>)
    ensures Compose(ds, []) == ds
    decreases |ds|
  {
    if ds != [] {
      NoExtrasKeepsDefaults(ds[..|ds| - 1]);
      assert ds[..|ds| - 1] + [ds[|ds| - 1]] == ds;
    }
  }

  /** The three variables `httpRequestSendWithCurl` passes to every
      `httpHeaderAdd` call: the header list, the outgoing size counter and the
      set of lower-cased names already used by an override. The offered
      standard headers and the payload bytes counted so far are ghost. */
  class HeaderSet {
    const extras: seq<Header>
    var lines: seq<Header>
    var size: int
    var used: set<string>
    ghost var offered: seq<Header>
    ghost var payload: nat

    /** Between the first header and the extra-header pass. */
    ghost predicate Valid()
      reads this
    {
      && lines == ResolveAll(offered, extras)
      && used == ConsumedBy(offered, extras)
      && size == TotalSize(lines) + payload
    }

    constructor (extras: seq<Header>)
      ensures this.extras == extras
      ensures lines == [] && size == 0 && used == {}
      ensures offered == [] && payload == 0 && Valid()
    {
      this.extras := extras;
      lines, size, used := [], 0, {};
      offered, payload := [], 0;
    }

    /** `httpHeaderAdd(&headers, d.name, Line(d), &outgoingMsgSize, extraHeaders, usedExtraHeaders)`. */
    method Add(d: Header)
      requires Valid()
      modifies this
      ensures lines == old(lines) + [Resolve(d, extras)]
      ensures size == old(size) + |Line(Resolve(d, extras))|
      ensures used == if Find(extras, d.name).Some? then old(used) + {Lower(d.name)} else old(used)
      ensures offered == old(offered) + [d] && payload == old(payload) && Valid()
    {
      var h := d;
      var it := Find(extras, d.name);
      if it.None? {
        h := d;
      } else {
        h := Header(d.name, it.value);
        used := used + {Lower(d.name)};
      }
      lines := lines + [h];
      size := size + |Line(h)|;
      offered := offered + [d];
      assert lines[..|lines| - 1] == old(lines);
      assert (offered)[..|offered| - 1] == old(offered);
    }

    /** `outgoingMsgSize += content.size()`. */
    method AddPayload(len: nat)
      requires Valid()
      modifies this
      ensures size == old(size) + len
      ensures lines == old(lines) && used == old(used) && offered == old(offered)
      ensures payload == old(payload) + len && Valid()
    {
      size := size + len;
      payload := payload + len;
    }

    /** One iteration of the extra-header loop: append `name: value` unless
        the lower-cased name was used by an override. */
    method AddUnlessUsed(h: Header)
      modifies this
      ensures var step := if Lower(h.name) in used then [] else [h];
        lines == old(lines) + step && size == old(size) + TotalSize(step)
      ensures used == old(used) && offered == old(offered) && payload == old(payload)
    {
      var headerNameLowerCase := Lower(h.name);
      if headerNameLowerCase !in used {
        var header := h;
        lines := lines + [header];
        size := size + |Line(header)|;
        assert [header][..0] == [];
      }
    }

    /** The loop over `extraHeaders` that appends every entry whose lower-cased
        name was not used by an override. */
    method AddExtras()
      modifies this
      ensures lines == old(lines) + Unconsumed(extras, used)
      ensures size == old(size) + TotalSize(Unconsumed(extras, used))
      ensures used == old(used) && offered == old(offered) && payload == old(payload)
    {
      var i := 0;
      ghost var added: seq<Header> := [];
      while i < |extras|
        invariant 0 <= i <= |extras|
        invariant used == old(used) && offered == old(offered) && payload == old(payload)
        invariant added == Unconsumed(extras[..i], used)
        invariant lines == old(lines) + added
        invariant size == old(size) + TotalSize(added)
      {
        var h := extras[i];
        ghost var step := if Lower(h.name) in used then [] else [h];
        UnconsumedStep(extras, i, used);
        TotalSizeAppend(added, step);
        AddUnlessUsed(h);
        added := added + step;
        i := i + 1;
      }
      assert extras[..i] == extras;
    }
  }
}
