/**
 * The fragment of JavaScript regular expressions the message classifier
 * uses, with the engine's backtracking semantics.
 *
 * Matching a pattern element from a state yields the list of states the
 * engine may continue from, in the order it tries them (greedy repetition
 * longest first, lazy repetition shortest first, alternatives left to
 * right, an optional group before skipping it). Matching a sequence of
 * elements tries each continuation of the first element in that order, so
 * the first state of the result is the one a backtracking engine accepts.
 */
module Regex {
  import opened Wrappers
  import opened Text

  /** The character classes the patterns use: `\s`, `\d` and `.`. */
  datatype Class = Space | Digit | AnyButLineTerminator

  predicate InClass(c: char, k: Class) {
    match k
    case Space => IsSpace(c)
    case Digit => IsDigit(c)
    case AnyButLineTerminator => !IsLineTerminator(c)
  }

  /**
   * A literal (compared ignoring case: every classifier pattern carries the
   * `i` flag), or a repetition `k*`, `k+`, `k+?` of one class, captured as
   * group `group` when that is positive.
   */
  datatype Atom =
    | Lit(text: string)
    | Rep(cls: Class, min: nat, greedy: bool, group: nat)

  /** An atom, or a non-capturing group `(?:a|b)` of atom sequences, optional as `(?:a|b)?`. */
  datatype Node = One(atom: Atom) | Group(alts: seq<seq<Atom>>, optional: bool)

  type Pattern = seq<Node>

  datatype Span = Span(start: nat, end: nat)

  /** The engine's position in the subject and the groups captured so far. */
  datatype State = State(pos: nat, caps: map<nat, Span>)

  /** A successful match: `match[0]` is the subject from `start` to `end`. */
  datatype Match = Match(start: nat, end: nat, caps: map<nat, Span>)

  // ---------------------------------------------------------------- atoms

  /** The literal `t` occurs at `p`, ignoring case. */
  predicate LitAt(s: string, p: nat, t: string) {
    LitFrom(s, p, t, 0)
  }

  /** Characters `i..` of the literal `t` occur at `p + i..`, ignoring case. */
  predicate LitFrom(s: string, p: nat, t: string, i: nat)
    decreases |t| - i
  {
    i >= |t| || (p + i < |s| && LowerChar(s[p + i]) == LowerChar(t[i]) && LitFrom(s, p, t, i + 1))
  }

  /** End of the longest run of class `k` starting at `p`. */
  function RunEnd(s: string, p: nat, k: Class): (e: nat)
    decreases |s| - p
    ensures p <= e
    ensures p <= |s| ==> e <= |s|
    ensures forall i :: p <= i < e ==> i < |s| && InClass(s[i], k)
    ensures e < |s| ==> !InClass(s[e], k)
  {
    if p >= |s| || !InClass(s[p], k) then p else RunEnd(s, p + 1, k)
  }

  /** `st` advanced to `e`, recording the span as group `g` when `g` is positive. */
  function Advance(st: State, e: nat, g: nat): State {
    State(e, if g == 0 then st.caps else st.caps[g := Span(st.pos, e)])
  }

  /** The ends `lo..hi` of a repetition, longest first when greedy, shortest first when lazy. */
  function RepStates(st: State, lo: int, hi: int, greedy: bool, g: nat): seq<State>
    decreases hi - lo
  {
    if lo > hi || lo < 0 then []
    else if greedy then [Advance(st, hi, g)] + RepStates(st, lo, hi - 1, greedy, g)
    else [Advance(st, lo, g)] + RepStates(st, lo + 1, hi, greedy, g)
  }

  /** A lazy repetition tries the ends `lo`, `lo + 1`, …, `hi` in turn. */
  lemma {:induction false} RepStatesLazy(st: State, lo: nat, hi: nat, g: nat)
    requires lo <= hi
    decreases hi - lo
    ensures var r := RepStates(st, lo, hi, false, g);
      |r| == hi - lo + 1 && forall i :: 0 <= i < |r| ==> r[i] == Advance(st, lo + i, g)
  {
    if lo < hi {
      RepStatesLazy(st, lo + 1, hi, g);
    }
  }

  function MatchAtom(a: Atom, s: string, st: State): seq<State> {
    match a
    case Lit(t) => if LitAt(s, st.pos, t) then [State(st.pos + |t|, st.caps)] else []
    case Rep(k, min, greedy, g) => RepStates(st, st.pos + min, RunEnd(s, st.pos, k), greedy, g)
  }

  // ---------------------------------------------------------------- sequences

  /** All continuations of matching `atoms[j..]` from `st`, in the order the engine tries them. */
  function MatchAtoms(atoms: seq<Atom>, j: nat, s: string, st: State): seq<State>
    decreases |atoms| - j, 0, 0
  {
    if j >= |atoms| then [st]
    else AtomsThen(MatchAtom(atoms[j], s, st), 0, atoms, j + 1, s)
  }

  /** Tries `atoms[j..]` from each of `sts[k..]` in turn and concatenates the results. */
  function AtomsThen(sts: seq<State>, k: nat, atoms: seq<Atom>, j: nat, s: string): seq<State>
    decreases |atoms| - j, 1, |sts| - k
  {
    if k >= |sts| then []
    else MatchAtoms(atoms, j, s, sts[k]) + AtomsThen(sts, k + 1, atoms, j, s)
  }

  /** The alternatives `alts[j..]` tried left to right. */
  function MatchAlts(alts: seq<seq<Atom>>, j: nat, s: string, st: State): seq<State>
    decreases |alts| - j
  {
    if j >= |alts| then [] else MatchAtoms(alts[j], 0, s, st) + MatchAlts(alts, j + 1, s, st)
  }

  function MatchNode(n: Node, s: string, st: State): seq<State> {
    match n
    case One(a) => MatchAtom(a, s, st)
    case Group(alts, optional) => MatchAlts(alts, 0, s, st) + (if optional then [st] else [])
  }

  /** All continuations of matching `ns[j..]` from `st`, in the order the engine tries them. */
  function MatchNodes(ns: seq<Node>, j: nat, s: string, st: State): seq<State>
    decreases |ns| - j, 0, 0
  {
    if j >= |ns| then [st]
    else NodesThen(MatchNode(ns[j], s, st), 0, ns, j + 1, s)
  }

  /** Tries `ns[j..]` from each of `sts[k..]` in turn and concatenates the results. */
  function NodesThen(sts: seq<State>, k: nat, ns: seq<Node>, j: nat, s: string): seq<State>
    decreases |ns| - j, 1, |sts| - k
  {
    if k >= |sts| then []
    else MatchNodes(ns, j, s, sts[k]) + NodesThen(sts, k + 1, ns, j, s)
  }

  // ---------------------------------------------------------------- search

  /** The match the engine reports when it starts at `p`, if any. */
  function MatchAt(pat: Pattern, s: string, p: nat): Option<Match> {
    var sts := MatchNodes(pat, 0, s, State(p, map[]));
    if sts == [] then None else Some(Match(p, sts[0].pos, sts[0].caps))
  }

  /**
   * The leftmost match at or after `from`: the engine tries each start
   * position in turn and reports the first one at which the pattern matches.
   */
  function SearchFrom(pat: Pattern, s: string, from: nat): (r: Option<Match>)
    decreases |s| + 1 - from
    ensures r.Some? ==> from <= r.value.start <= |s| && MatchAt(pat, s, r.value.start) == r
    ensures r.Some? ==> forall q :: from <= q < r.value.start ==> MatchAt(pat, s, q).None?
    ensures r.None? ==> forall q :: from <= q <= |s| ==> MatchAt(pat, s, q).None?
  {
    if from > |s| then None
    else if MatchAt(pat, s, from).Some? then MatchAt(pat, s, from)
    else SearchFrom(pat, s, from + 1)
  }

  /** `s.match(pat)` for a pattern without the `g` flag. */
  function Search(pat: Pattern, s: string): Option<Match> {
    SearchFrom(pat, s, 0)
  }

  /** `match[g]`: the text of capture group `g`, absent when the group did not take part. */
  function GroupText(m: Match, s: string, g: nat): Option<string> {
    if g in m.caps && m.caps[g].start <= m.caps[g].end <= |s|
    then Some(s[m.caps[g].start..m.caps[g].end])
    else None
  }

  /** `match[0]`: the matched text. */
  function MatchedText(m: Match, s: string): string {
    if m.start <= m.end <= |s| then s[m.start..m.end] else []
  }

  // ---------------------------------------------------------------- soundness

  /**
   * Every recorded group lies inside the subject, is non-empty, and consists
   * of characters of the class `classes` assigns to it.
   */
  ghost predicate CapturesOk(s: string, caps: map<nat, Span>, classes: map<nat, Class>) {
    forall g :: g in caps ==>
      && g in classes
      && caps[g].start < caps[g].end <= |s|
      && forall i :: caps[g].start <= i < caps[g].end ==> InClass(s[i], classes[g])
  }

  ghost predicate StateOk(s: string, st: State, classes: map<nat, Class>) {
    st.pos <= |s| && CapturesOk(s, st.caps, classes)
  }

  /** A capturing repetition matches at least one character of the class recorded for its group. */
  ghost predicate AtomOk(a: Atom, classes: map<nat, Class>) {
    a.Rep? && a.group > 0 ==> a.group in classes && classes[a.group] == a.cls && a.min >= 1
  }

  ghost predicate AtomsOk(atoms: seq<Atom>, classes: map<nat, Class>) {
    forall j :: 0 <= j < |atoms| ==> AtomOk(atoms[j], classes)
  }

  ghost predicate NodeOk(n: Node, classes: map<nat, Class>) {
    match n
    case One(a) => AtomOk(a, classes)
    case Group(alts, _) => forall j :: 0 <= j < |alts| ==> AtomsOk(alts[j], classes)
  }

  /** The pattern's capturing repetitions agree with `classes`. */
  ghost predicate PatternOk(pat: Pattern, classes: map<nat, Class>) {
    forall j :: 0 <= j < |pat| ==> NodeOk(pat[j], classes)
  }

  /** The capture group a top-level node records on every path, or 0. */
  function TopGroup(n: Node): nat {
    if n.One? && n.atom.Rep? then n.atom.group else 0
  }

  /** `later` extends `st`: well formed, no earlier group lost. */
  ghost predicate Extends(s: string, st: State, later: State, classes: map<nat, Class>) {
    StateOk(s, later, classes) && st.caps.Keys <= later.caps.Keys && st.pos <= later.pos
  }

  lemma {:induction false} RepStatesSound(s: string, st: State, lo: int, hi: int, greedy: bool, g: nat)
    decreases hi - lo
    ensures forall x :: x in RepStates(st, lo, hi, greedy, g) ==> lo <= x.pos <= hi && x == Advance(st, x.pos, g)
  {
    if lo <= hi && lo >= 0 {
      if greedy {
        RepStatesSound(s, st, lo, hi - 1, greedy, g);
      } else {
        RepStatesSound(s, st, lo + 1, hi, greedy, g);
      }
    }
  }

  lemma MatchAtomSound(a: Atom, s: string, st: State, classes: map<nat, Class>)
    requires StateOk(s, st, classes) && AtomOk(a, classes)
    ensures forall x :: x in MatchAtom(a, s, st) ==> Extends(s, st, x, classes)
    ensures forall x :: x in MatchAtom(a, s, st) && a.Rep? && a.group > 0 ==> a.group in x.caps
  {
    match a
    case Lit(t) =>
      if LitAt(s, st.pos, t) {
        LitAtBound(s, st.pos, t, 0);
      }
    case Rep(k, min, greedy, g) =>
      var e := RunEnd(s, st.pos, k);
      RepStatesSound(s, st, st.pos + min, e, greedy, g);
      forall x | x in MatchAtom(a, s, st)
        ensures Extends(s, st, x, classes)
      {
        if g > 0 {
          forall h | h in x.caps
            ensures h in classes && x.caps[h].start < x.caps[h].end <= |s|
            ensures forall i :: x.caps[h].start <= i < x.caps[h].end ==> InClass(s[i], classes[h])
          {
            if h != g { assert h in st.caps; }
          }
        }
      }
  }

  lemma {:induction false} LitAtBound(s: string, p: nat, t: string, i: nat)
    requires LitFrom(s, p, t, i) && p + i <= |s| && i <= |t|
    decreases |t| - i
    ensures p + |t| <= |s|
  {
    if i < |t| {
      LitAtBound(s, p, t, i + 1);
    }
  }

  lemma {:induction false} MatchAtomsSound(atoms: seq<Atom>, j: nat, s: string, st: State, classes: map<nat, Class>)
    requires StateOk(s, st, classes) && AtomsOk(atoms, classes)
    decreases |atoms| - j, 0, 0
    ensures forall x :: x in MatchAtoms(atoms, j, s, st) ==> Extends(s, st, x, classes)
  {
    if j < |atoms| {
      var sts := MatchAtom(atoms[j], s, st);
      MatchAtomSound(atoms[j], s, st, classes);
      AtomsThenSound(sts, 0, atoms, j + 1, s, st, classes);
    }
  }

  lemma {:induction false} AtomsThenSound(sts: seq<State>, k: nat, atoms: seq<Atom>, j: nat, s: string, st: State, classes: map<nat, Class>)
    requires AtomsOk(atoms, classes)
    requires forall x :: x in sts ==> Extends(s, st, x, classes)
    decreases |atoms| - j, 1, |sts| - k
    ensures forall x :: x in AtomsThen(sts, k, atoms, j, s) ==> Extends(s, st, x, classes)
  {
    if k < |sts| {
      assert sts[k] in sts;
      MatchAtomsSound(atoms, j, s, sts[k], classes);
      AtomsThenSound(sts, k + 1, atoms, j, s, st, classes);
    }
  }

  lemma {:induction false} MatchAltsSound(alts: seq<seq<Atom>>, j: nat, s: string, st: State, classes: map<nat, Class>)
    requires StateOk(s, st, classes)
    requires forall i :: 0 <= i < |alts| ==> AtomsOk(alts[i], classes)
    decreases |alts| - j
    ensures forall x :: x in MatchAlts(alts, j, s, st) ==> Extends(s, st, x, classes)
  {
    if j < |alts| {
      MatchAtomsSound(alts[j], 0, s, st, classes);
      MatchAltsSound(alts, j + 1, s, st, classes);
    }
  }

  lemma MatchNodeSound(n: Node, s: string, st: State, classes: map<nat, Class>)
    requires StateOk(s, st, classes) && NodeOk(n, classes)
    ensures forall x :: x in MatchNode(n, s, st) ==> Extends(s, st, x, classes)
    ensures forall x :: x in MatchNode(n, s, st) && TopGroup(n) > 0 ==> TopGroup(n) in x.caps
  {
    match n
    case One(a) => MatchAtomSound(a, s, st, classes);
    case Group(alts, optional) => MatchAltsSound(alts, 0, s, st, classes);
  }

  /** Every top-level capture of `ns[j..]` is recorded in `x`. */
  ghost predicate HasTopGroups(ns: seq<Node>, j: nat, x: State) {
    forall i :: j <= i < |ns| && TopGroup(ns[i]) > 0 ==> TopGroup(ns[i]) in x.caps
  }

  lemma {:induction false} MatchNodesSound(ns: seq<Node>, j: nat, s: string, st: State, classes: map<nat, Class>)
    requires StateOk(s, st, classes) && PatternOk(ns, classes)
    decreases |ns| - j, 0, 0
    ensures forall x :: x in MatchNodes(ns, j, s, st) ==> Extends(s, st, x, classes) && HasTopGroups(ns, j, x)
  {
    if j < |ns| {
      var sts := MatchNode(ns[j], s, st);
      MatchNodeSound(ns[j], s, st, classes);
      var got: set<nat> := if TopGroup(ns[j]) > 0 then {TopGroup(ns[j])} else {};
      NodesThenSound(sts, 0, ns, j + 1, s, st, got, classes);
      assert MatchNodes(ns, j, s, st) == NodesThen(sts, 0, ns, j + 1, s);
      forall x | x in NodesThen(sts, 0, ns, j + 1, s)
        ensures HasTopGroups(ns, j, x)
      {
        assert HasTopGroups(ns, j + 1, x) && got <= x.caps.Keys;
      }
    }
  }

  /** Continuing from states that all hold the groups `got`. */
  lemma {:induction false} NodesThenSound(sts: seq<State>, k: nat, ns: seq<Node>, j: nat, s: string, st: State, got: set<nat>, classes: map<nat, Class>)
    requires PatternOk(ns, classes)
    requires forall x :: x in sts ==> Extends(s, st, x, classes) && got <= x.caps.Keys
    decreases |ns| - j, 1, |sts| - k
    ensures forall x :: x in NodesThen(sts, k, ns, j, s) ==>
      Extends(s, st, x, classes) && HasTopGroups(ns, j, x) && got <= x.caps.Keys
  {
    if k < |sts| {
      assert sts[k] in sts;
      MatchNodesSound(ns, j, s, sts[k], classes);
      NodesThenSound(sts, k + 1, ns, j, s, st, got, classes);
    }
  }

  /**
   * A match of a well-formed pattern records every top-level group, and each
   * recorded group is a non-empty run of its class inside the subject.
   */
  lemma MatchSound(pat: Pattern, s: string, p: nat, classes: map<nat, Class>)
    requires PatternOk(pat, classes) && p <= |s|
    requires MatchAt(pat, s, p).Some?
    ensures CapturesOk(s, MatchAt(pat, s, p).value.caps, classes)
    ensures p <= MatchAt(pat, s, p).value.end <= |s|
    ensures forall i :: 0 <= i < |pat| && TopGroup(pat[i]) > 0 ==> TopGroup(pat[i]) in MatchAt(pat, s, p).value.caps
  {
    var st := State(p, map[]);
    MatchNodesSound(pat, 0, s, st, classes);
    assert MatchNodes(pat, 0, s, st)[0] in MatchNodes(pat, 0, s, st);
  }

  /** A pattern that starts with a literal matches only where that literal occurs. */
  lemma LeadingLiteral(pat: Pattern, s: string, p: nat)
    requires |pat| > 0 && pat[0].One? && pat[0].atom.Lit?
    requires MatchAt(pat, s, p).Some?
    ensures LitAt(s, p, pat[0].atom.text)
  {
    var st := State(p, map[]);
    assert MatchNodes(pat, 0, s, st) == NodesThen(MatchNode(pat[0], s, st), 0, pat, 1, s);
  }

  // ---------------------------------------------------------------- stepping

  /** `x` is the first continuation in `sts`: the one the engine commits to. */
  predicate Leads(sts: seq<State>, x: State) {
    sts != [] && sts[0] == x
  }

  /** When the whole pattern leads from the start of `s` to `x`, the search reports that match. */
  lemma MatchesFromStart(pat: Pattern, s: string, x: State)
    requires Leads(MatchNodes(pat, 0, s, State(0, map[])), x)
    ensures Search(pat, s) == Some(Match(0, x.pos, x.caps))
  {
  }

  /**
   * A pattern led by a literal that occurs at the start of `s`, whose
   * remaining nodes lead from there to `x`, matches from the start.
   */
  lemma MatchesAfterLeadingLiteral(pat: Pattern, s: string, x: State)
    requires |pat| > 0 && pat[0].One? && pat[0].atom.Lit? && LitAt(s, 0, pat[0].atom.text)
    requires Leads(MatchNodes(pat, 1, s, State(|pat[0].atom.text|, map[])), x)
    ensures Search(pat, s) == Some(Match(0, x.pos, x.caps))
  {
    ThroughFirst(pat, 0, s, State(0, map[]), State(|pat[0].atom.text|, map[]), x);
    MatchesFromStart(pat, s, x);
  }

  /** If the first continuation of node `j` leads to `x`, so does the whole sequence. */
  lemma ThroughFirst(ns: seq<Node>, j: nat, s: string, st: State, next: State, x: State)
    requires j < |ns|
    requires Leads(MatchNode(ns[j], s, st), next)
    requires Leads(MatchNodes(ns, j + 1, s, next), x)
    ensures Leads(MatchNodes(ns, j, s, st), x)
  {
    var sts := MatchNode(ns[j], s, st);
    assert NodesThen(sts, 0, ns, j + 1, s) == MatchNodes(ns, j + 1, s, next) + NodesThen(sts, 1, ns, j + 1, s);
  }

  /**
   * When the first `k` continuations of node `j` cannot be completed, the
   * engine backtracks to continuation `k`, and what it leads to is the result.
   */
  lemma ThroughAfter(ns: seq<Node>, j: nat, s: string, st: State, k: nat, x: State)
    requires j < |ns| && k < |MatchNode(ns[j], s, st)|
    requires forall i :: 0 <= i < k ==> MatchNodes(ns, j + 1, s, MatchNode(ns[j], s, st)[i]) == []
    requires Leads(MatchNodes(ns, j + 1, s, MatchNode(ns[j], s, st)[k]), x)
    ensures Leads(MatchNodes(ns, j, s, st), x)
  {
    var sts, next := MatchNode(ns[j], s, st), j + 1;
    forall l | 0 <= l < k
      ensures Skippable(sts, l, ns, next, s)
    {
      NodesThenStep(sts, l, ns, next, s);
    }
    NodesThenSkip(sts, 0, k, ns, next, s);
    NodesThenStep(sts, k, ns, next, s);
  }

  /** Dropping continuation `l` leaves the continuations of `sts` from `l` on unchanged. */
  predicate Skippable(sts: seq<State>, l: nat, ns: seq<Node>, j: nat, s: string) {
    NodesThen(sts, l, ns, j, s) == NodesThen(sts, l + 1, ns, j, s)
  }

  /** Continuations that contribute nothing can be skipped together. */
  lemma {:induction false} NodesThenSkip(sts: seq<State>, i: nat, k: nat, ns: seq<Node>, j: nat, s: string)
    requires i <= k
    requires forall l :: i <= l < k ==> Skippable(sts, l, ns, j, s)
    decreases k - i
    ensures NodesThen(sts, i, ns, j, s) == NodesThen(sts, k, ns, j, s)
  {
    if i < k {
      assert Skippable(sts, i, ns, j, s);
      NodesThenSkip(sts, i + 1, k, ns, j, s);
    }
  }

  /** One step of `NodesThen`: the continuations from `sts[i]`, then those from the rest. */
  lemma NodesThenStep(sts: seq<State>, i: nat, ns: seq<Node>, j: nat, s: string)
    requires i < |sts|
    ensures NodesThen(sts, i, ns, j, s) == MatchNodes(ns, j, s, sts[i]) + NodesThen(sts, i + 1, ns, j, s)
  {
  }

  /** A literal node that does not occur at the current position fails there. */
  lemma LitFails(ns: seq<Node>, j: nat, s: string, st: State)
    requires j < |ns| && ns[j].One? && ns[j].atom.Lit? && !LitAt(s, st.pos, ns[j].atom.text)
    ensures MatchNodes(ns, j, s, st) == []
  {
  }

  lemma {:induction false} NodesThenFail(sts: seq<State>, k: nat, ns: seq<Node>, j: nat, s: string)
    requires forall i :: k <= i < |sts| ==> MatchNodes(ns, j, s, sts[i]) == []
    decreases |sts| - k
    ensures NodesThen(sts, k, ns, j, s) == []
  {
    if k < |sts| {
      NodesThenFail(sts, k + 1, ns, j, s);
    }
  }

  /** If no continuation of node `j` can be completed, the sequence fails from `st`. */
  lemma AllFail(ns: seq<Node>, j: nat, s: string, st: State)
    requires j < |ns|
    requires forall x :: x in MatchNode(ns[j], s, st) ==> MatchNodes(ns, j + 1, s, x) == []
    ensures MatchNodes(ns, j, s, st) == []
  {
    var sts := MatchNode(ns[j], s, st);
    assert forall i :: 0 <= i < |sts| ==> sts[i] in sts;
    NodesThenFail(sts, 0, ns, j + 1, s);
  }

  /** A one-atom alternative contributes exactly that atom's continuations. */
  lemma SingleAtom(a: Atom, s: string, st: State)
    ensures MatchAtoms([a], 0, s, st) == MatchAtom(a, s, st)
  {
    var sts := MatchAtom(a, s, st);
    AtomsThenSingle(sts, 0, a, s);
  }

  lemma {:induction false} AtomsThenSingle(sts: seq<State>, k: nat, a: Atom, s: string)
    requires k <= |sts|
    decreases |sts| - k
    ensures AtomsThen(sts, k, [a], 1, s) == sts[k..]
  {
    if k < |sts| {
      AtomsThenSingle(sts, k + 1, a, s);
      assert sts[k..] == [sts[k]] + sts[k + 1..];
    }
  }

  /** The literal `t` occurs (ignoring case) at no position in `from..to`. */
  predicate NoLitIn(s: string, t: string, from: nat, to: nat)
    decreases (to as int) - (from as int)
  {
    from >= to || (!LitAt(s, from, t) && NoLitIn(s, t, from + 1, to))
  }

  /** A search for a pattern led by a literal skips the positions where the literal does not occur. */
  lemma {:induction false} SkipToLiteral(pat: Pattern, s: string, from: nat, to: nat)
    requires |pat| > 0 && pat[0].One? && pat[0].atom.Lit?
    requires from <= to && NoLitIn(s, pat[0].atom.text, from, to)
    decreases (to as int) - (from as int)
    ensures SearchFrom(pat, s, from) == SearchFrom(pat, s, to)
  {
    if from < to {
      if MatchAt(pat, s, from).Some? {
        LeadingLiteral(pat, s, from);
      }
      SkipToLiteral(pat, s, from + 1, to);
    }
  }

  /** A pattern led by a literal that does not occur anywhere never matches. */
  lemma AbsentLiteral(pat: Pattern, s: string)
    requires |pat| > 0 && pat[0].One? && pat[0].atom.Lit?
    requires NoLitIn(s, pat[0].atom.text, 0, |s| + 1)
    ensures Search(pat, s).None?
  {
    SkipToLiteral(pat, s, 0, |s| + 1);
  }
}
