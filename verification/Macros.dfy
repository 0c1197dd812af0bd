/** References to macros in the values of a submit file, which Condor expands before it uses a value.
    Nothing in condor_job/description.hpp keeps them out. */
module Macros {
  import opened Text

  // ----- References -----

  /** What a version of Condor takes for a reference: the functions that it knows, and whether a plain
      reference may have a default. */
  datatype Dialect = Dialect(functions: set<string>, defaults: bool)

  predicate NameChar(c: char) {
    IsAlnum(c) || c == '_' || c == '.'
  }

  function NameLength(t: string): (n: nat)
    ensures n <= |t|
  {
    if t != "" && NameChar(t[0]) then 1 + NameLength(t[1..]) else 0
  }

  /** The end of the word that comes first at or behind a place, or 0. */
  function EndOf(t: string, w: string, p: nat): (n: nat)
    requires p <= |t|
    ensures n <= |t| && (n > 0 ==> p <= n)
    decreases |t| - p
  {
    if w <= t[p..] then p + |w| else if p == |t| then 0 else EndOf(t, w, p + 1)
  }

  /** The end of a plain reference whose name begins at the place, or 0. */
  function PlainEnd(t: string, p: nat, defaults: bool): (n: nat)
    requires p <= |t|
    ensures n <= |t| && (n > 0 ==> p <= n)
  {
    var q := p + NameLength(t[p..]);
    if q < |t| && t[q] == ')' then q + 1
    else if q < |t| && t[q] == ':' && defaults then EndOf(t, ")", q)
    else 0
  }

  /** The length of the reference that the text starts with, or 0: an expression about the machine or an
      attribute of it, a macro, or a call of a function. */
  function RefLength(t: string, d: Dialect): (n: nat)
    ensures n <= |t|
  {
    if "$$([" <= t then EndOf(t, "])", 4)
    else if "$$(" <= t then PlainEnd(t, 3, true)
    else if "$(" <= t then PlainEnd(t, 2, d.defaults)
    else if "$" <= t then
      var p := 1 + NameLength(t[1..]);
      if t[1..p] in d.functions && p < |t| && t[p] == '(' then EndOf(t, ")", p + 1) else 0
    else 0
  }

  predicate HasRef(t: string, d: Dialect) {
    t != "" && (RefLength(t, d) > 0 || HasRef(t[1..], d))
  }

  /** Each reference is replaced by its value. */
  function Expand(t: string, d: Dialect, macros: string -> string): string
    decreases |t|
  {
    if t == "" then ""
    else
      var n := RefLength(t, d);
      if n > 0 then macros(t[..n]) + Expand(t[n..], d, macros) else [t[0]] + Expand(t[1..], d, macros)
  }

  lemma {:induction false} NothingExpanded(t: string, d: Dialect, macros: string -> string)
    requires !HasRef(t, d)
    ensures Expand(t, d, macros) == t
  {
    if t != "" {
      hide RefLength;
      NothingExpanded(t[1..], d, macros);
      assert t == [t[0]] + t[1..];
    }
  }

  /** Where there is no dollar sign there is no reference. */
  lemma {:induction false} NoDollarNoRef(t: string, d: Dialect)
    requires '$' !in t
    ensures !HasRef(t, d)
  {
    if t != "" {
      assert t[0] in t;
      NoDollarNoRef(t[1..], d);
    }
  }

  /** A reference without a default. */
  function PlainRef(name: string): string {
    "$(" + (name + ")")
  }

  lemma {:induction false} NameLengthIs(name: string, t: string)
    requires forall c | c in name :: NameChar(c)
    ensures NameLength(name + (")" + t)) == |name|
  {
    var all := name + (")" + t);
    if name == "" {
      assert all == ")" + t;
    } else {
      assert all[0] == name[0] && name[0] in name && all[1..] == name[1..] + (")" + t);
      NameLengthIs(name[1..], t);
    }
  }

  lemma PlainRefIsRef(name: string, w: string, d: Dialect)
    requires forall c | c in name :: NameChar(c)
    ensures RefLength(PlainRef(name) + w, d) > 0
  {
    var t := PlainRef(name) + w;
    assert t == "$(" + (name + (")" + w));
    NameLengthIs(name, w);
    assert t[1] == '(' && t[2..] == name + (")" + w) && t[2 + |name|] == ')';
    hide NameLength;
  }

  /** Every dialect sees such a reference, whatever stands around it. */
  lemma {:induction false} PlainRefIsSeen(u: string, name: string, w: string, d: Dialect)
    requires forall c | c in name :: NameChar(c)
    ensures HasRef(u + (PlainRef(name) + w), d)
  {
    var t := u + (PlainRef(name) + w);
    if u == "" {
      assert t == PlainRef(name) + w;
      PlainRefIsRef(name, w, d);
    } else {
      assert t[1..] == u[1..] + (PlainRef(name) + w);
      PlainRefIsSeen(u[1..], name, w, d);
    }
    hide RefLength;
  }

  // ----- Counting parentheses -----

  /** The number of opening parentheses. */
  function Parens(t: string): nat {
    if t == "" then 0 else (if t[0] == '(' then 1 else 0) + Parens(t[1..])
  }

  lemma {:induction false} ParensConcat(u: string, v: string)
    ensures Parens(u + v) == Parens(u) + Parens(v)
  {
    if u == "" {
      assert u + v == v;
    } else {
      assert (u + v)[1..] == u[1..] + v;
      ParensConcat(u[1..], v);
    }
  }

  lemma {:induction false} NoParens(t: string)
    requires '(' !in t
    ensures Parens(t) == 0
  {
    if t != "" {
      NoParens(t[1..]);
    }
  }

  function AllParens(ts: seq<string>): nat {
    if ts == [] then 0 else Parens(ts[0]) + AllParens(ts[1..])
  }

  lemma ParenIsCounted(t: string, k: nat)
    requires k < |t| && t[k] == '('
    ensures Parens(t) > 0
  {
    assert t == t[..k] + t[k..];
    ParensConcat(t[..k], t[k..]);
  }

  /** Values of macros with neither a parenthesis nor a line break, such as numbers, names and the dollar
      sign. */
  ghost predicate Tame(macros: string -> string) {
    forall ref :: '(' !in macros(ref) && '\n' !in macros(ref)
  }

  lemma RefHasParens(t: string, d: Dialect)
    requires RefLength(t, d) > 0
    ensures Parens(t[..RefLength(t, d)]) > 0
  {
    var n := RefLength(t, d);
    var k := if "$$(" <= t then 2 else if "$(" <= t then 1 else 1 + NameLength(t[1..]);
    assert k < n && t[k] == '(';
    hide RefLength;
    ParenIsCounted(t[..n], k);
  }

  /** Expanding takes a parenthesis away for each reference. */
  lemma {:induction false} ExpandShrinks(t: string, d: Dialect, macros: string -> string)
    requires Tame(macros)
    ensures Parens(Expand(t, d, macros)) <= Parens(t)
    ensures HasRef(t, d) ==> Parens(Expand(t, d, macros)) < Parens(t)
    decreases |t|
  {
    hide Parens;
    hide RefLength;
    if t == "" {
      assert Expand(t, d, macros) == t;
    } else {
      var n := RefLength(t, d);
      if n > 0 {
        ExpandShrinks(t[n..], d, macros);
        RefHasParens(t, d);
        NoParens(macros(t[..n]));
        hide Tame;
        ParensConcat(macros(t[..n]), Expand(t[n..], d, macros));
        assert t == t[..n] + t[n..];
        ParensConcat(t[..n], t[n..]);
      } else {
        ExpandShrinks(t[1..], d, macros);
        hide Tame;
        ParensConcat([t[0]], Expand(t[1..], d, macros));
        ParensConcat([t[0]], t[1..]);
        assert t == [t[0]] + t[1..];
      }
    }
  }

  lemma {:induction false} ExpandedOneLine(t: string, d: Dialect, macros: string -> string)
    requires Tame(macros) && '\n' !in t
    ensures '\n' !in Expand(t, d, macros)
    decreases |t|
  {
    if t != "" {
      var n := RefLength(t, d);
      hide RefLength;
      if n > 0 {
        ExpandedOneLine(t[n..], d, macros);
      } else {
        ExpandedOneLine(t[1..], d, macros);
      }
    }
  }

  /** What no parenthesis has been taken away from has no reference. */
  lemma Unexpanded(t: string, d: Dialect, macros: string -> string)
    requires Tame(macros) && Parens(Expand(t, d, macros)) == Parens(t)
    ensures !HasRef(t, d) && Expand(t, d, macros) == t
  {
    ExpandShrinks(t, d, macros);
    hide HasRef;
    NothingExpanded(t, d, macros);
  }
}
