/**
 * The consent-gated script loader.
 *
 * A third-party script is rendered inert as `<script type="text/plain"
 * data-consent="...">`. Once its category has consent, it is promoted: a live
 * copy (every attribute but `type`, a runnable `type`, the same text) is
 * inserted right after it, and the original is flagged
 * `data-consent-enabled="true"` so it is never promoted again.
 *
 * The document is the sequence of its script elements in document order. A
 * `Script` that is not in that sequence stands for a detached element, whose
 * `parentNode` is null.
 */
module ScriptManager {
  import opened Js
  import opened Dom
  import opened Consent
  import opened Sequences

  const TypeAttr := "type"
  const ConsentAttr := "data-consent"
  const PartytownAttr := "data-partytown"
  const EnabledAttr := "data-consent-enabled"

  const InertType := "text/plain"
  const ScriptType := "text/javascript"
  const PartytownType := "text/partytown"

  /** The categories `enableConsentedScripts` visits, in its order. */
  const CategoryOrder: seq<Category> := [Necessary, Functional, Performance, Targeting]

  lemma CategoryOrderComplete(c: Category)
    ensures c in CategoryOrder
  {
  }

  function CategoryNamed(name: string): (r: Option<Category>)
    ensures r.Some? ==> r.value.Name() == name
  {
    if name == "necessary" then Some(Necessary)
    else if name == "functional" then Some(Functional)
    else if name == "performance" then Some(Performance)
    else if name == "targeting" then Some(Targeting)
    else None
  }

  /** `dataset.consentEnabled === 'true'`. */
  predicate Enabled(v: ScriptValue) {
    GetAttr(v.attrs, EnabledAttr) == Some("true")
  }

  /**
   * `[type="text/plain"]`: in an HTML document the selector compares the
   * value of `type` ignoring ASCII case.
   */
  predicate InertTyped(v: ScriptValue) {
    GetAttr(v.attrs, TypeAttr).Some? && ToLower(GetAttr(v.attrs, TypeAttr).value) == InertType
  }

  /**
   * The category whose selector `script[type="text/plain"][data-consent="c"]`
   * matches the element, if any.
   */
  function GateOf(v: ScriptValue): (r: Option<Category>)
    ensures forall c: Category :: r == Some(c) <==>
      InertTyped(v) && GetAttr(v.attrs, ConsentAttr) == Some(c.Name())
  {
    var consent := GetAttr(v.attrs, ConsentAttr);
    if InertTyped(v) && consent.Some? then CategoryNamed(consent.value)
    else None
  }

  /** Gated on a category of `cats` and not yet promoted. */
  predicate PendingIn(v: ScriptValue, cats: set<Category>) {
    GateOf(v).Some? && GateOf(v).value in cats && !Enabled(v)
  }

  /** The `type` a promoted copy runs under. */
  function LiveType(v: ScriptValue): string {
    if GetAttr(v.attrs, PartytownAttr) == Some("true") then PartytownType else ScriptType
  }

  /** The live copy of a gated element. */
  function Promoted(v: ScriptValue): (r: ScriptValue)
    ensures forall n :: GetAttr(r.attrs, n) == if n == TypeAttr then Some(LiveType(v)) else GetAttr(v.attrs, n)
    ensures r.text == v.text
    ensures GateOf(r) == None
  {
    ScriptValue(SetAttr(Without(v.attrs, TypeAttr), TypeAttr, LiveType(v)), v.text)
  }

  /** The original after promotion: flagged, otherwise as it was. */
  function MarkEnabled(v: ScriptValue): (r: ScriptValue)
    ensures forall n :: GetAttr(r.attrs, n) == if n == EnabledAttr then Some("true") else GetAttr(v.attrs, n)
    ensures r.text == v.text
    ensures Enabled(r) && GateOf(r) == GateOf(v)
  {
    ScriptValue(SetAttr(v.attrs, EnabledAttr, "true"), v.text)
  }

  /** What `enableScript` leaves in place of one element inside the document. */
  function Promotion(v: ScriptValue): seq<ScriptValue> {
    if Enabled(v) then [v] else [MarkEnabled(v), Promoted(v)]
  }

  function Expand(v: ScriptValue, cats: set<Category>): seq<ScriptValue> {
    if GateOf(v).Some? && GateOf(v).value in cats then Promotion(v) else [v]
  }

  /** The document after every element gated on a category of `cats` has been promoted. */
  function PromoteSet(vs: seq<ScriptValue>, cats: set<Category>): seq<ScriptValue>
    decreases |vs|
  {
    if |vs| == 0 then [] else Expand(vs[0], cats) + PromoteSet(vs[1..], cats)
  }

  function CountPending(vs: seq<ScriptValue>, cats: set<Category>): nat
    decreases |vs|
  {
    if |vs| == 0 then 0 else (if PendingIn(vs[0], cats) then 1 else 0) + CountPending(vs[1..], cats)
  }

  lemma {:induction false} PromoteSetAppend(a: seq<ScriptValue>, b: seq<ScriptValue>, cats: set<Category>)
    ensures PromoteSet(a + b, cats) == PromoteSet(a, cats) + PromoteSet(b, cats)
    decreases |a|
  {
    if |a| > 0 {
      assert (a + b)[0] == a[0];
      assert (a + b)[1..] == a[1..] + b;
      PromoteSetAppend(a[1..], b, cats);
    } else {
      assert a + b == b;
    }
  }

  lemma {:induction false} PromoteSetSingle(v: ScriptValue, cats: set<Category>)
    ensures PromoteSet([v], cats) == Expand(v, cats)
  {
    assert [v][1..] == [];
  }

  /** A document with nothing pending is left as it is. */
  lemma {:induction false} PromoteSetNoop(vs: seq<ScriptValue>, cats: set<Category>)
    requires forall i :: 0 <= i < |vs| ==> !PendingIn(vs[i], cats)
    ensures PromoteSet(vs, cats) == vs
    decreases |vs|
  {
    if |vs| > 0 {
      PromoteSetNoop(vs[1..], cats);
      assert vs == [vs[0]] + vs[1..];
    }
  }

  /** After a pass nothing is pending for the categories of that pass. */
  lemma {:induction false} PromoteSetClears(vs: seq<ScriptValue>, cats: set<Category>)
    ensures forall i :: 0 <= i < |PromoteSet(vs, cats)| ==> !PendingIn(PromoteSet(vs, cats)[i], cats)
    decreases |vs|
  {
    if |vs| > 0 {
      PromoteSetClears(vs[1..], cats);
    }
  }

  /** Every pending element gains exactly one live copy; nothing else is added. */
  lemma {:induction false} PromoteSetLength(vs: seq<ScriptValue>, cats: set<Category>)
    ensures |PromoteSet(vs, cats)| == |vs| + CountPending(vs, cats)
    decreases |vs|
  {
    if |vs| > 0 {
      PromoteSetLength(vs[1..], cats);
    }
  }

  /**
   * Reconciling with the categories `a` and then with `b` is reconciling once
   * with both: copies are live and originals are flagged, so the second pass
   * only promotes what the first did not reach.
   */
  lemma {:induction false} SequentialPasses(vs: seq<ScriptValue>, a: set<Category>, b: set<Category>)
    ensures PromoteSet(PromoteSet(vs, a), b) == PromoteSet(vs, a + b)
    decreases |vs|
  {
    if |vs| > 0 {
      var v := vs[0];
      calc {
        PromoteSet(PromoteSet(vs, a), b);
        { PromoteSetAppend(Expand(v, a), PromoteSet(vs[1..], a), b); }
        PromoteSet(Expand(v, a), b) + PromoteSet(PromoteSet(vs[1..], a), b);
        { SequentialPasses(vs[1..], a, b); }
        PromoteSet(Expand(v, a), b) + PromoteSet(vs[1..], a + b);
        { ExpandTwice(v, a, b); }
        Expand(v, a + b) + PromoteSet(vs[1..], a + b);
      }
    }
  }

  lemma ExpandTwice(v: ScriptValue, a: set<Category>, b: set<Category>)
    ensures PromoteSet(Expand(v, a), b) == Expand(v, a + b)
  {
    if GateOf(v).Some? && GateOf(v).value in a && !Enabled(v) {
      var m, p := MarkEnabled(v), Promoted(v);
      assert [m, p][1..] == [p];
      PromoteSetSingle(p, b);
      assert PromoteSet([m, p], b) == Expand(m, b) + PromoteSet([p], b);
      assert Expand(m, b) == [m];
      assert Expand(p, b) == [p];
    } else {
      PromoteSetSingle(v, b);
    }
  }

  /** Idempotence: a second reconcile pass with unchanged consent changes nothing. */
  lemma PromoteSetIdempotent(vs: seq<ScriptValue>, cats: set<Category>)
    ensures PromoteSet(PromoteSet(vs, cats), cats) == PromoteSet(vs, cats)
  {
    SequentialPasses(vs, cats, cats);
    assert cats + cats == cats;
  }

  /** One category at a time, the element order of `cats` does not matter. */
  lemma PassesCommute(vs: seq<ScriptValue>, a: set<Category>, b: set<Category>)
    ensures PromoteSet(PromoteSet(vs, a), b) == PromoteSet(PromoteSet(vs, b), a)
  {
    SequentialPasses(vs, a, b);
    SequentialPasses(vs, b, a);
    assert a + b == b + a;
  }

  /** The categories that `hasConsentFor` grants. */
  function ConsentedCategories(env: Env, parse: Parser): (r: set<Category>)
    ensures forall c :: c in r <==> HasConsentFor(env, parse, c)
  {
    forall c ensures c in CategoryOrder { CategoryOrderComplete(c); }
    Granted(env, parse, CategoryOrder)
  }

  /** The categories among `cs` that `hasConsentFor` grants. */
  function Granted(env: Env, parse: Parser, cs: seq<Category>): (r: set<Category>)
    ensures forall c :: c in r <==> c in cs && HasConsentFor(env, parse, c)
    decreases |cs|
  {
    if |cs| == 0 then {}
    else
      var last := cs[|cs| - 1];
      assert cs == cs[..|cs| - 1] + [last];
      Granted(env, parse, cs[..|cs| - 1]) + (if HasConsentFor(env, parse, last) then {last} else {})
  }

  lemma GrantedStep(env: Env, parse: Parser, cs: seq<Category>, i: nat)
    requires i < |cs|
    ensures Granted(env, parse, cs[..i + 1]) ==
      Granted(env, parse, cs[..i]) + if HasConsentFor(env, parse, cs[i]) then {cs[i]} else {}
  {
    assert cs[..i + 1][..i] == cs[..i];
  }

  /** The elements of `xs` whose value in `vs` the selector for `c` matches, in order. */
  function Select(xs: seq<Script>, vs: seq<ScriptValue>, c: Category): seq<Script>
    requires |xs| == |vs|
    decreases |xs|
  {
    if |xs| == 0 then []
    else if GateOf(vs[0]) == Some(c) then [xs[0]] + Select(xs[1..], vs[1..], c)
    else Select(xs[1..], vs[1..], c)
  }

  /** Every matching element is selected. */
  lemma {:induction false} SelectComplete(xs: seq<Script>, vs: seq<ScriptValue>, c: Category)
    requires |xs| == |vs|
    ensures forall i :: 0 <= i < |xs| && GateOf(vs[i]) == Some(c) ==> xs[i] in Select(xs, vs, c)
    decreases |xs|
  {
    if |xs| > 0 {
      SelectComplete(xs[1..], vs[1..], c);
      forall i | 1 <= i < |xs| && GateOf(vs[i]) == Some(c) ensures xs[i] in Select(xs, vs, c) {
        assert xs[1..][i - 1] == xs[i] && vs[1..][i - 1] == vs[i];
      }
    }
  }

  /** `x` occurs in `xs` at a position whose value the selector for `c` matches. */
  ghost predicate MatchedIn(x: Script, xs: seq<Script>, vs: seq<ScriptValue>, c: Category)
    requires |xs| == |vs|
  {
    exists i :: 0 <= i < |xs| && xs[i] == x && GateOf(vs[i]) == Some(c)
  }

  /** Only matching elements are selected. */
  lemma {:induction false} SelectSound(xs: seq<Script>, vs: seq<ScriptValue>, c: Category)
    requires |xs| == |vs|
    ensures forall k :: 0 <= k < |Select(xs, vs, c)| ==> MatchedIn(Select(xs, vs, c)[k], xs, vs, c)
    decreases |xs|
  {
    if |xs| > 0 {
      SelectSound(xs[1..], vs[1..], c);
      var rest, r := Select(xs[1..], vs[1..], c), Select(xs, vs, c);
      var hit := GateOf(vs[0]) == Some(c);
      assert r == if hit then [xs[0]] + rest else rest;
      forall k | 0 <= k < |r| ensures MatchedIn(r[k], xs, vs, c) {
        if hit && k == 0 {
          assert xs[0] == r[0];
        } else {
          var k' := if hit then k - 1 else k;
          assert r[k] == rest[k'];
          assert MatchedIn(rest[k'], xs[1..], vs[1..], c);
          var i :| 0 <= i < |xs| - 1 && xs[1..][i] == rest[k'] && GateOf(vs[1..][i]) == Some(c);
          assert xs[i + 1] == r[k] && GateOf(vs[i + 1]) == Some(c);
        }
      }
    }
  }

  /** The selected elements keep their document order. */
  lemma {:induction false} SelectOrdered(xs: seq<Script>, vs: seq<ScriptValue>, c: Category)
    requires |xs| == |vs|
    ensures IsSubsequence(Select(xs, vs, c), xs)
    decreases |xs|
  {
    if |xs| > 0 {
      SelectOrdered(xs[1..], vs[1..], c);
      var rest := Select(xs[1..], vs[1..], c);
      if GateOf(vs[0]) != Some(c) {
        SubsequenceCons(rest, xs);
      } else {
        assert ([xs[0]] + rest)[1..] == rest;
      }
    }
  }

  lemma {:induction false} SelectHead(xs: seq<Script>, vs: seq<ScriptValue>, c: Category) returns (j: nat)
    requires |xs| == |vs| && Select(xs, vs, c) != []
    ensures j < |xs| && xs[j] == Select(xs, vs, c)[0] && GateOf(vs[j]) == Some(c)
    ensures forall i :: 0 <= i < j ==> GateOf(vs[i]) != Some(c)
    ensures Select(xs[j + 1..], vs[j + 1..], c) == Select(xs, vs, c)[1..]
    decreases |xs|
  {
    if GateOf(vs[0]) == Some(c) {
      j := 0;
    } else {
      var j' := SelectHead(xs[1..], vs[1..], c);
      j := j' + 1;
      assert xs[1..][j' + 1..] == xs[j + 1..];
      assert vs[1..][j' + 1..] == vs[j + 1..];
    }
  }

  lemma SelectEmpty(xs: seq<Script>, vs: seq<ScriptValue>, c: Category)
    requires |xs| == |vs| && Select(xs, vs, c) == []
    ensures PromoteSet(vs, {c}) == vs
  {
    SelectComplete(xs, vs, c);
    PromoteSetNoop(vs, {c});
  }

  function Values(xs: seq<Script>): (r: seq<ScriptValue>)
    reads xs
    ensures |r| == |xs| && forall i :: 0 <= i < |xs| ==> r[i] == xs[i].Value()
  {
    seq(|xs|, i requires 0 <= i < |xs| reads xs => xs[i].Value())
  }

  /** No element occurs twice in the document. */
  predicate Distinct(xs: seq<Script>)
    decreases |xs|
  {
    |xs| == 0 || (xs[0] !in xs[1..] && Distinct(xs[1..]))
  }

  /** In a document without repeats, an element has one position. */
  lemma {:induction false} DistinctAt(xs: seq<Script>, i: nat, j: nat)
    requires Distinct(xs) && i < |xs| && j < |xs|
    ensures xs[i] == xs[j] ==> i == j
    decreases |xs|
  {
    if i > 0 && j > 0 {
      DistinctAt(xs[1..], i - 1, j - 1);
    } else if i > 0 {
      assert xs[1..][i - 1] == xs[i];
    } else if j > 0 {
      assert xs[1..][j - 1] == xs[j];
    }
  }

  lemma DistinctOthers(xs: seq<Script>, i: nat)
    requires Distinct(xs) && i < |xs|
    ensures forall j :: 0 <= j < |xs| && j != i ==> xs[j] != xs[i]
  {
    forall j | 0 <= j < |xs| && j != i ensures xs[j] != xs[i] {
      DistinctAt(xs, i, j);
    }
  }

  /** Inserting a new element keeps the document free of repeats. */
  lemma {:induction false} DistinctSplice(xs: seq<Script>, i: nat, x: Script)
    requires Distinct(xs) && i < |xs| && x !in xs
    ensures Distinct(xs[..i + 1] + [x] + xs[i + 1..])
    decreases i
  {
    var ys := xs[..i + 1] + [x] + xs[i + 1..];
    if i == 0 {
      assert ys == [xs[0]] + ([x] + xs[1..]);
      assert ([x] + xs[1..])[1..] == xs[1..];
    } else {
      DistinctSplice(xs[1..], i - 1, x);
      assert ys == [xs[0]] + (xs[1..][..i] + [x] + xs[1..][i..]);
      assert xs[0] != x;
      assert multiset(ys[1..]) == multiset(xs[1..]) + multiset{x} by {
        assert ys[1..] == xs[1..][..i] + [x] + xs[1..][i..];
        assert xs[1..] == xs[1..][..i] + xs[1..][i..];
      }
      assert xs[0] !in multiset(xs[1..]);
    }
  }

  /** The page's document, reduced to its script elements in document order. */
  class Document {
    var nodes: seq<Script>
    /** Every element the document holds or has held. */
    ghost var Repr: set<object>

    ghost predicate Valid()
      reads this`nodes, this`Repr, nodes
    {
      Distinct(nodes) && forall n :: n in nodes ==> n in Repr
    }

    constructor (scripts: seq<Script>)
      requires Distinct(scripts)
      ensures Valid() && nodes == scripts
    {
      nodes := scripts;
      Repr := set i | 0 <= i < |scripts| :: scripts[i];
    }

    /** The values of the script elements, in document order. */
    function View(): seq<ScriptValue>
      reads this`nodes, nodes
    {
      Values(nodes)
    }

    /** `findBlockedScripts(category)`: `querySelectorAll` of the category's selector. */
    function FindBlockedScripts(c: Category): (r: seq<Script>)
      reads this`nodes, nodes
      ensures forall i :: 0 <= i < |nodes| && GateOf(nodes[i].Value()) == Some(c) ==> nodes[i] in r
      ensures forall k :: 0 <= k < |r| ==> r[k] in nodes && GateOf(r[k].Value()) == Some(c)
      ensures IsSubsequence(r, nodes)
    {
      SelectComplete(nodes, View(), c);
      SelectSound(nodes, View(), c);
      SelectOrdered(nodes, View(), c);
      Select(nodes, View(), c)
    }

    /** `parentNode.insertBefore(copy, nextSibling)`: `copy` goes right after `nodes[i]`. */
    method InsertAfter(i: nat, copy: Script)
      requires i < |nodes| && Valid() && copy !in nodes && copy in Repr
      modifies this`nodes
      ensures nodes == old(nodes)[..i + 1] + [copy] + old(nodes)[i + 1..]
      ensures View() == old(View())[..i + 1] + [copy.Value()] + old(View())[i + 1..]
      ensures Valid()
    {
      ValuesSplice(nodes, i, copy);
      DistinctSplice(nodes, i, copy);
      ghost var n0 := nodes;
      nodes := nodes[..i + 1] + [copy] + nodes[i + 1..];
      forall n | n in nodes ensures n in Repr {
        assert n in n0[..i + 1] || n == copy || n in n0[i + 1..];
      }
    }

    /** `blockedScript.dataset.consentEnabled = 'true'`, for the element at position `i`. */
    method MarkAt(i: nat)
      requires i < |nodes| && Valid()
      modifies nodes[i]
      ensures nodes[i].Value() == MarkEnabled(old(nodes[i].Value()))
      ensures View() == old(View())[i := MarkEnabled(old(nodes[i].Value()))]
      ensures Valid()
    {
      var s := nodes[i];
      ghost var v0 := View();
      DistinctOthers(nodes, i);
      s.SetAttribute(EnabledAttr, "true");
      assert View() == v0[i := s.Value()];
    }

    /** The same flag on an element outside the document. */
    method MarkDetached(s: Script)
      requires Valid() && s !in nodes
      modifies s
      ensures s.Value() == MarkEnabled(old(s.Value()))
      ensures View() == old(View()) && Valid()
    {
      s.SetAttribute(EnabledAttr, "true");
      UnmarkedDocument(nodes);
    }

    /** `enableScript(blockedScript)`. */
    method EnableScript(s: Script)
      requires Valid()
      modifies this, s
      ensures Valid()
      ensures fresh(Repr - old(Repr))
      ensures s.Value() == if Enabled(old(s.Value())) then old(s.Value()) else MarkEnabled(old(s.Value()))
      ensures s !in old(nodes) ==> nodes == old(nodes) && View() == old(View())
      ensures s in old(nodes) ==>
        Spliced(old(nodes), old(View()), nodes, View(), IndexOf(old(nodes), s), old(s.Value()))
    {
      if GetAttr(s.attrs, EnabledAttr) == Some("true") {
        if s in nodes {
          SplicedSelf(nodes, View(), IndexOf(nodes, s));
        }
        return;
      }
      var copy := LiveCopy(s);
      Repr := Repr + {copy};
      if s in nodes {
        var i := IndexOf(nodes, s);
        PromoteAt(i, copy);
      } else {
        MarkDetached(s);
      }
    }

    /** The attached case of `enableScript`: flag `nodes[i]` and insert its live copy after it. */
    method PromoteAt(i: nat, copy: Script)
      requires i < |nodes| && Valid() && copy !in nodes && copy in Repr
      requires !Enabled(nodes[i].Value()) && copy.Value() == Promoted(nodes[i].Value())
      modifies this`nodes, nodes[i]
      ensures old(nodes)[i].Value() == MarkEnabled(old(nodes[i].Value()))
      ensures Spliced(old(nodes), old(View()), nodes, View(), i, old(nodes[i].Value()))
      ensures Valid()
    {
      ghost var n0, v0, w := nodes, View(), nodes[i].Value();
      MarkAt(i);
      ghost var v1 := View();
      InsertAfter(i, copy);
      assert View() == v1[..i + 1] + [copy.Value()] + v1[i + 1..];
      UpdateSplice(v0, i, MarkEnabled(w), Promoted(w));
      InsertedSlices(n0, i, copy);
      assert Promotion(w) == [MarkEnabled(w), Promoted(w)];
    }

    /** `enableScriptsForCategory(category)`, on a snapshot of the blocked elements. */
    method EnableScriptsForCategory(c: Category)
      requires Valid()
      modifies this, Repr
      ensures Valid()
      ensures fresh(Repr - old(Repr))
      ensures View() == PromoteSet(old(View()), {c})
    {
      var blocked := FindBlockedScripts(c);
      if |blocked| == 0 {
        SelectEmpty(nodes, View(), c);
        return;
      }
      ghost var ov := View();
      ghost var p: nat, q: nat := 0, 0;
      ProgressStart(ov, nodes, c);
      var k := 0;
      while k < |blocked|
        invariant 0 <= k <= |blocked|
        invariant Valid()
        invariant fresh(Repr - old(Repr))
        invariant Progress(ov, q, nodes, View(), p, blocked[k..], c)
      {
        p, q := EnableNext(ov, q, p, blocked[k..], c);
        assert blocked[k + 1..] == blocked[k..][1..];
        k := k + 1;
      }
      ProgressDone(ov, q, nodes, View(), p, c);
    }

    /** One round of `blockedScripts.forEach(enableScript)`: the next element of the snapshot. */
    method EnableNext(ghost ov: seq<ScriptValue>, ghost q: nat, ghost p: nat, rest: seq<Script>, c: Category)
      returns (ghost p': nat, ghost q': nat)
      requires Valid() && Progress(ov, q, nodes, View(), p, rest, c) && rest != []
      modifies this, Repr
      ensures Valid() && fresh(Repr - old(Repr))
      ensures Progress(ov, q', nodes, View(), p', rest[1..], c)
    {
      var s := rest[0];
      ghost var n0, v0 := nodes, View();
      ghost var j := NextBlocked(ov, q, n0, v0, p, rest, c);
      assert v0[p + j] == s.Value();
      DistinctAt(n0, IndexOf(n0, s), p + j);
      EnableScript(s);
      p', q' := ProgressStep(ov, q, n0, v0, p, rest, c, j, nodes, View());
    }

    /** `enableConsentedScripts()`: one pass over the categories, in order. */
    method EnableConsentedScripts(jar: CookieJar, parse: Parser)
      requires Valid()
      modifies this, Repr
      ensures Valid()
      ensures fresh(Repr - old(Repr))
      ensures View() == PromoteSet(old(View()), ConsentedCategories(Browser(jar), parse))
    {
      ghost var env, ov := Browser(jar), View();
      ghost var done: set<Category> := {};
      assert CategoryOrder[..0] == [];
      PromoteSetNoop(ov, {});
      var i := 0;
      while i < |CategoryOrder|
        invariant 0 <= i <= |CategoryOrder|
        invariant Valid()
        invariant fresh(Repr - old(Repr))
        invariant done == Granted(env, parse, CategoryOrder[..i])
        invariant View() == PromoteSet(ov, done)
      {
        var c := CategoryOrder[i];
        GrantedStep(env, parse, CategoryOrder, i);
        if HasConsentFor(Browser(jar), parse, c) {
          EnableScriptsForCategory(c);
          SequentialPasses(ov, done, {c});
          done := done + {c};
        }
        i := i + 1;
      }
      assert CategoryOrder[..i] == CategoryOrder;
    }
  }

  lemma {:induction false} AbsentBefore(attrs: seq<Attr>, k: nat)
    requires k < |attrs| && UniqueNames(attrs)
    ensures GetAttr(Without(attrs[..k], TypeAttr), attrs[k].name).None?
  {
    forall a | a in attrs[..k] ensures a.name != attrs[k].name {
      var i :| 0 <= i < k && attrs[..k][i] == a;
    }
    NoNameNoAttr(attrs[..k], attrs[k].name);
  }

  lemma {:induction false} SetAttrTwice(attrs: seq<Attr>, name: string, x: string, y: string)
    ensures SetAttr(SetAttr(attrs, name, x), name, y) == SetAttr(attrs, name, y)
    decreases |attrs|
  {
    if |attrs| > 0 && attrs[0].name != name {
      SetAttrTwice(attrs[1..], name, x, y);
    }
  }

  /** The live copy `enableScript` builds: `createElement`, then one attribute at a time. */
  method LiveCopy(s: Script) returns (copy: Script)
    ensures fresh(copy)
    ensures copy.Value() == Promoted(s.Value())
  {
    copy := new Script();
    var k := 0;
    while k < |s.attrs|
      modifies copy
      invariant 0 <= k <= |s.attrs|
      invariant copy.attrs == Without(s.attrs[..k], TypeAttr)
      invariant copy.text == ""
    {
      var a := s.attrs[k];
      if a.name != TypeAttr {
        AbsentBefore(s.attrs, k);
        SetAttrAppends(copy.attrs, a.name, a.value);
        copy.SetAttribute(a.name, a.value);
      }
      WithoutSnoc(s.attrs[..k], a, TypeAttr);
      assert s.attrs[..k + 1] == s.attrs[..k] + [a];
      k := k + 1;
    }
    assert s.attrs[..k] == s.attrs;
    WithoutUnique(s.attrs, TypeAttr);
    SetAttrTwice(copy.attrs, TypeAttr, ScriptType, PartytownType);
    copy.SetAttribute(TypeAttr, ScriptType);
    if GetAttr(s.attrs, PartytownAttr) == Some("true") {
      copy.SetAttribute(TypeAttr, PartytownType);
    }
    if s.text != "" {
      copy.text := s.text;
    }
  }

  /** The values of the document after an element is inserted after position `i`. */
  lemma ValuesSplice(n0: seq<Script>, i: nat, copy: Script)
    requires i < |n0|
    ensures Values(n0[..i + 1] + [copy] + n0[i + 1..]) == Values(n0)[..i + 1] + [copy.Value()] + Values(n0)[i + 1..]
  {
  }

  /** An element that is already enabled is its own promotion. */
  lemma SplicedSelf(n0: seq<Script>, v0: seq<ScriptValue>, i: nat)
    requires i < |n0| == |v0| && Enabled(v0[i])
    ensures Spliced(n0, v0, n0, v0, i, v0[i])
  {
    assert v0 == v0[..i] + [v0[i]] + v0[i + 1..];
  }

  lemma InsertedSlices(n0: seq<Script>, i: nat, x: Script)
    requires i < |n0|
    ensures var n1 := n0[..i + 1] + [x] + n0[i + 1..];
      |n1| == |n0| + 1 && n1[..i + 1] == n0[..i + 1] && n1[i + 2..] == n0[i + 1..]
  {
    var n1 := n0[..i + 1] + [x] + n0[i + 1..];
    assert n1[..i + 1] == n0[..i + 1];
    assert n1[i + 2..] == n0[i + 1..];
  }

  /** Replacing position `i` by `m` and inserting `p` after it. */
  lemma UpdateSplice(v0: seq<ScriptValue>, i: nat, m: ScriptValue, p: ScriptValue)
    requires i < |v0|
    ensures v0[i := m][..i + 1] + [p] + v0[i := m][i + 1..] == v0[..i] + [m, p] + v0[i + 1..]
  {
  }

  /** No element of `n0` changed: the document's values are as they were. */
  twostate lemma UnmarkedDocument(n0: seq<Script>)
    requires forall j :: 0 <= j < |n0| ==> unchanged(n0[j])
    ensures Values(n0) == old(Values(n0))
  {
  }

  /**
   * One step of `EnableScriptsForCategory`'s loop, on the document's values:
   * the element at `p + j`, the first match at or after `p`, has been promoted.
   */
  lemma ViewStep(ov: seq<ScriptValue>, v0: seq<ScriptValue>, v1: seq<ScriptValue>, p: nat, q: nat, j: nat, c: Category,
                 p': nat, q': nat)
    requires p <= |v0| && q <= |ov|
    requires v0[..p] == PromoteSet(ov[..q], {c}) && v0[p..] == ov[q..]
    requires p + j < |v0| && GateOf(v0[p + j]) == Some(c)
    requires forall i :: 0 <= i < j ==> GateOf(v0[p..][i]) != Some(c)
    requires v1 == v0[..p + j] + Promotion(v0[p + j]) + v0[p + j + 1..]
    requires p' == p + j + |Promotion(v0[p + j])| && q' == q + j + 1
    ensures p' <= |v1| && q' <= |ov|
    ensures v1[..p'] == PromoteSet(ov[..q'], {c})
    ensures v1[p'..] == ov[q'..] && v1[p'..] == v0[p + j + 1..]
  {
    var w := v0[p + j];
    SameSuffix(ov, v0, p, q, j, c);
    PromoteStep(ov, q, j, c, v0[..p], w);
    assert v0[..p + j] == v0[..p] + v0[p..p + j];
    assert v1[..p'] == v0[..p + j] + Promotion(w);
    assert v1[p'..] == v0[p + j + 1..];
  }

  /** The unvisited suffix `v0[p..]` is the unvisited suffix `ov[q..]` of the original. */
  lemma SameSuffix(ov: seq<ScriptValue>, v0: seq<ScriptValue>, p: nat, q: nat, j: nat, c: Category)
    requires q <= |ov| && p + j < |v0| && v0[p..] == ov[q..]
    requires forall i :: 0 <= i < j ==> GateOf(v0[p..][i]) != Some(c)
    ensures q + j < |ov| && ov[q + j] == v0[p + j]
    ensures forall i :: q <= i < q + j ==> GateOf(ov[i]) != Some(c)
    ensures ov[q..q + j] == v0[p..p + j] && ov[q + j + 1..] == v0[p + j + 1..]
  {
    assert v0[p..][j] == ov[q..][j];
    forall i | q <= i < q + j ensures GateOf(ov[i]) != Some(c) {
      assert ov[i] == v0[p..][i - q];
    }
    assert v0[p..][..j] == ov[q..][..j];
    assert v0[p..][j + 1..] == ov[q..][j + 1..];
  }

  /** One step of `EnableScriptsForCategory`'s loop, on the snapshot: what is left to visit. */
  lemma SelectStep(n0: seq<Script>, v0: seq<ScriptValue>, n1: seq<Script>, v1: seq<ScriptValue>,
                   p: nat, j: nat, p': nat, c: Category, blocked: seq<Script>, k: nat)
    requires |n0| == |v0| && |n1| == |v1| && p + j < |n0| && p' <= |n1| && k < |blocked|
    requires blocked[k..] == Select(n0[p..], v0[p..], c)
    requires Select(n0[p..][j + 1..], v0[p..][j + 1..], c) == Select(n0[p..], v0[p..], c)[1..]
    requires n1[p'..] == n0[p + j + 1..] && v1[p'..] == v0[p + j + 1..]
    ensures blocked[k + 1..] == Select(n1[p'..], v1[p'..], c)
  {
    assert blocked[k + 1..] == blocked[k..][1..];
    assert n0[p..][j + 1..] == n0[p + j + 1..];
    assert v0[p..][j + 1..] == v0[p + j + 1..];
  }

  /**
   * Where `EnableScriptsForCategory`'s loop stands: the document `vs` is the
   * first `q` elements of the original `ov`, promoted, followed by the
   * untouched rest, and `rest` is what the snapshot still has to visit.
   */
  ghost predicate Progress(ov: seq<ScriptValue>, q: nat, ns: seq<Script>, vs: seq<ScriptValue>, p: nat,
                           rest: seq<Script>, c: Category)
  {
    && |ns| == |vs| && p <= |vs| && q <= |ov|
    && vs[..p] == PromoteSet(ov[..q], {c}) && vs[p..] == ov[q..]
    && rest == Select(ns[p..], vs[p..], c)
  }

  lemma ProgressStart(ov: seq<ScriptValue>, ns: seq<Script>, c: Category)
    requires |ns| == |ov|
    ensures Progress(ov, 0, ns, ov, 0, Select(ns, ov, c), c)
  {
    assert ov[..0] == [] && ov[0..] == ov && ns[0..] == ns;
  }

  /**
   * `n1`/`v1` is `n0`/`v0` after `enableScript` on the element at `i`, whose
   * value was `w`: that position now holds `Promotion(w)`, and the elements
   * before and after it are where they were.
   */
  ghost predicate Spliced(n0: seq<Script>, v0: seq<ScriptValue>, n1: seq<Script>, v1: seq<ScriptValue>,
                          i: nat, w: ScriptValue)
  {
    && i < |n0| && i < |v0|
    && |n1| == |n0| + |Promotion(w)| - 1
    && n1[..i + 1] == n0[..i + 1]
    && n1[i + |Promotion(w)|..] == n0[i + 1..]
    && v1 == v0[..i] + Promotion(w) + v0[i + 1..]
  }

  /** `j` is the offset of the first element of `xs` the selector for `c` matches. */
  ghost predicate FirstMatch(xs: seq<Script>, vs: seq<ScriptValue>, c: Category, j: nat)
    requires |xs| == |vs|
  {
    && j < |xs| && GateOf(vs[j]) == Some(c) && Select(xs, vs, c) != [] && xs[j] == Select(xs, vs, c)[0]
    && (forall i :: 0 <= i < j ==> GateOf(vs[i]) != Some(c))
    && Select(xs[j + 1..], vs[j + 1..], c) == Select(xs, vs, c)[1..]
  }

  /** The next element of the snapshot is the first match at or after `p`. */
  lemma NextBlocked(ov: seq<ScriptValue>, q: nat, n0: seq<Script>, v0: seq<ScriptValue>, p: nat,
                    rest: seq<Script>, c: Category) returns (j: nat)
    requires Progress(ov, q, n0, v0, p, rest, c) && rest != []
    ensures p + j < |n0| && n0[p + j] == rest[0] && FirstMatch(n0[p..], v0[p..], c, j)
  {
    j := SelectHead(n0[p..], v0[p..], c);
  }

  lemma ProgressStep(ov: seq<ScriptValue>, q: nat, n0: seq<Script>, v0: seq<ScriptValue>, p: nat,
                     rest: seq<Script>, c: Category, j: nat, n1: seq<Script>, v1: seq<ScriptValue>)
    returns (p': nat, q': nat)
    requires Progress(ov, q, n0, v0, p, rest, c) && rest != []
    requires p + j < |n0| && FirstMatch(n0[p..], v0[p..], c, j)
    requires Spliced(n0, v0, n1, v1, p + j, v0[p + j])
    ensures Progress(ov, q', n1, v1, p', rest[1..], c)
  {
    var w := v0[p + j];
    p', q' := p + j + |Promotion(w)|, q + j + 1;
    assert |v1| == |v0| + |Promotion(w)| - 1;
    ViewStep(ov, v0, v1, p, q, j, c, p', q');
    assert n1[p'..] == n0[p + j + 1..];
    SelectStep(n0, v0, n1, v1, p, j, p', c, rest, 0);
  }

  lemma ProgressDone(ov: seq<ScriptValue>, q: nat, ns: seq<Script>, vs: seq<ScriptValue>, p: nat, c: Category)
    requires Progress(ov, q, ns, vs, p, [], c)
    ensures vs == PromoteSet(ov, {c})
  {
    SelectEmpty(ns[p..], vs[p..], c);
    JoinDone(ov, q, vs, p, {c});
  }

  lemma JoinDone(ov: seq<ScriptValue>, q: nat, vs: seq<ScriptValue>, p: nat, cats: set<Category>)
    requires q <= |ov| && p <= |vs| && vs[..p] == PromoteSet(ov[..q], cats) && vs[p..] == ov[q..]
    requires PromoteSet(vs[p..], cats) == vs[p..]
    ensures vs == PromoteSet(ov, cats)
  {
    PromoteSplit(ov, q, cats);
    assert vs == vs[..p] + vs[p..];
  }

  lemma PromoteSplit(vs: seq<ScriptValue>, k: nat, cats: set<Category>)
    requires k <= |vs|
    ensures PromoteSet(vs, cats) == PromoteSet(vs[..k], cats) + PromoteSet(vs[k..], cats)
  {
    PromoteSetAppend(vs[..k], vs[k..], cats);
    assert vs[..k] + vs[k..] == vs;
  }

  lemma PrefixSplit<T>(s: seq<T>, a: nat, b: nat)
    requires a <= b < |s|
    ensures s[..b + 1] == s[..a] + s[a..b] + [s[b]]
  {
    assert s[..b + 1] == s[..b] + [s[b]];
    assert s[..b] == s[..a] + s[a..b];
  }

  /** One step of `EnableScriptsForCategory`'s loop, on values. */
  lemma PromoteStep(ov: seq<ScriptValue>, q: nat, j: nat, c: Category, done: seq<ScriptValue>, w: ScriptValue)
    requires q + j < |ov| && ov[q + j] == w && GateOf(w) == Some(c)
    requires forall i :: q <= i < q + j ==> GateOf(ov[i]) != Some(c)
    requires done == PromoteSet(ov[..q], {c})
    ensures PromoteSet(ov[..q + j + 1], {c}) == done + ov[q..q + j] + Promotion(w)
  {
    PrefixSplit(ov, q, q + j);
    PromoteSetAppend(ov[..q] + ov[q..q + j], [w], {c});
    PromoteSetAppend(ov[..q], ov[q..q + j], {c});
    PromoteSetNoop(ov[q..q + j], {c});
    PromoteSetSingle(w, {c});
  }

  /**
   * `initScriptManager()`: without a document nothing happens; while the
   * document is still loading the pass is deferred to `DOMContentLoaded`
   * (the listener is not modelled); otherwise the pass runs at once.
   */
  method InitScriptManager(doc: Document?, loading: bool, jar: CookieJar, parse: Parser) returns (deferred: bool)
    requires doc != null ==> doc.Valid()
    modifies if doc != null then {doc} + doc.Repr else {}
    ensures deferred <==> doc != null && loading
    ensures doc != null && loading ==> doc.nodes == old(doc.nodes) && doc.View() == old(doc.View())
    ensures doc != null && !loading ==>
      doc.Valid() && doc.View() == PromoteSet(old(doc.View()), ConsentedCategories(Browser(jar), parse))
  {
    if doc == null {
      return false;
    }
    if loading {
      return true;
    }
    doc.EnableConsentedScripts(jar, parse);
    return false;
  }

  /** Reconciling twice with unchanged consent leaves what one pass left. */
  method ReconcileTwice(doc: Document, jar: CookieJar, parse: Parser)
    requires doc.Valid()
    modifies doc, doc.Repr
    ensures doc.Valid()
    ensures doc.View() == PromoteSet(old(doc.View()), ConsentedCategories(Browser(jar), parse))
  {
    doc.EnableConsentedScripts(jar, parse);
    ghost var once := doc.View();
    doc.EnableConsentedScripts(jar, parse);
    assert doc.View() == once by {
      PromoteSetIdempotent(old(doc.View()), ConsentedCategories(Browser(jar), parse));
    }
  }
}
