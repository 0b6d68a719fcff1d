/**
 Expanding a submit digest into the override attributes of one proc. The macro table is one
 object, changed by every expansion. Macro expansion and the mapping of submit commands to
 attributes are `apply`, any function of the table; `lower` is the lower-case form of a name.
 */
module Digest {
  import opened Decimal

  /** ASCII Unit Separator, between the fields of a packed row. */
  const ITEM_SEPARATOR := '\U{1f}'

  type Macros = map<string, string>

  type Ad = map<string, string>

  datatype Assign = Assign(key: string, value: string, expr: bool)

  // ----- item rows -----

  function IndexOf(s: string, ch: char): (i: nat)
    ensures i <= |s| && (i < |s| ==> s[i] == ch) && forall j | 0 <= j < i :: s[j] != ch
  {
    if s == "" || s[0] == ch then 0 else 1 + IndexOf(s[1..], ch)
  }

  function Split(s: string, ch: char): seq<string>
    decreases |s|
  {
    var i := IndexOf(s, ch);
    if i == |s| then [s] else [s[..i]] + Split(s[i + 1..], ch)
  }

  /** White space as Unicode has it. */
  predicate IsSpace(c: char) {
    || '\t' <= c <= '\r' || c == ' ' || c == '\U{85}' || c == '\U{A0}' || c == '\U{1680}'
    || '\U{2000}' <= c <= '\U{200A}' || c == '\U{2028}' || c == '\U{2029}' || c == '\U{202F}' || c == '\U{205F}'
    || c == '\U{3000}'
  }

  /** The maximal stretches without white space. */
  function Fields(s: string): seq<string> {
    if s == "" then []
    else
      var fs := Fields(s[..|s| - 1]);
      var c := s[|s| - 1];
      if IsSpace(c) then fs
      else if fs == [] || |s| == 1 || IsSpace(s[|s| - 2]) then fs + [[c]]
      else fs[|fs| - 1 := fs[|fs| - 1] + [c]]
  }

  function SplitRow(row: string, nvars: nat): seq<string> {
    if row == "" then []
    else if ITEM_SEPARATOR in row then Split(row, ITEM_SEPARATOR)
    else if nvars <= 1 then [row]
    else Fields(row)
  }

  function Join(fields: seq<string>, ch: char): string
    requires fields != []
  {
    if |fields| == 1 then fields[0] else fields[0] + [ch] + Join(fields[1..], ch)
  }

  lemma {:induction false} SplitJoin(fields: seq<string>, ch: char)
    requires fields != [] && forall i | 0 <= i < |fields| :: ch !in fields[i]
    ensures Split(Join(fields, ch), ch) == fields
    ensures |fields| > 1 ==> ch in Join(fields, ch)
  {
    if |fields| == 1 {
      assert IndexOf(fields[0], ch) == |fields[0]|;
    } else {
      var rest := Join(fields[1..], ch);
      SplitFirst(fields[0], ch, rest);
      SplitJoin(fields[1..], ch);
      assert fields == [fields[0]] + fields[1..];
    }
  }

  lemma SplitFirst(field: string, ch: char, rest: string)
    requires ch !in field
    ensures Split(field + [ch] + rest, ch) == [field] + Split(rest, ch) && ch in field + [ch] + rest
  {
    var s := field + [ch] + rest;
    var n := |field|;
    assert s[n] == ch && s[..n] == field && s[n + 1..] == rest;
    assert IndexOf(s, ch) == n by {
      assert forall j | 0 <= j < n :: s[j] == field[j];
    }
  }

  /** A row packed from two or more fields comes apart into those fields. */
  lemma PackedRowSplits(fields: seq<string>, nvars: nat)
    requires |fields| > 1 && forall i | 0 <= i < |fields| :: ITEM_SEPARATOR !in fields[i]
    ensures SplitRow(Join(fields, ITEM_SEPARATOR), nvars) == fields
  {
    SplitJoin(fields, ITEM_SEPARATOR);
  }

  /** A row without a separator: the whole of it for a single variable, nothing when it is empty. */
  lemma PlainRowIsWhole(row: string, nvars: nat)
    requires ITEM_SEPARATOR !in row
    ensures row == "" ==> SplitRow(row, nvars) == []
    ensures row != "" && nvars <= 1 ==> SplitRow(row, nvars) == [row]
  {
  }

  predicate IsWord(w: string) { w != "" && forall i | 0 <= i < |w| :: !IsSpace(w[i]) && w[i] != ITEM_SEPARATOR }

  /** Words with a blank between any two. */
  function Spaced(words: seq<string>): string
    requires words != []
  {
    if |words| == 1 then words[0] else Spaced(words[..|words| - 1]) + " " + words[|words| - 1]
  }

  lemma {:induction false} WordEndsRow(s: string, w: string)
    requires IsWord(w) && (s == "" || IsSpace(s[|s| - 1]))
    ensures Fields(s + w) == Fields(s) + [w]
  {
    var t := s + w;
    var n := |w| - 1;
    assert t[..|t| - 1] == s + w[..n] && t[|t| - 1] == w[n] && !IsSpace(w[n]);
    if n == 0 {
      assert s + w[..n] == s && w == [w[n]];
    } else {
      WordEndsRow(s, w[..n]);
      assert t[|t| - 2] == w[n - 1] && !IsSpace(w[n - 1]);
      assert w == w[..n] + [w[n]];
    }
  }

  lemma BlankEndsRow(s: string)
    ensures Fields(s + " ") == Fields(s)
  {
    assert (s + " ")[..|s|] == s && IsSpace(' ');
  }

  lemma OneMoreWord(row: string, w: string)
    requires IsWord(w)
    ensures Fields(row + " " + w) == Fields(row) + [w]
  {
    BlankEndsRow(row);
    assert IsSpace((row + " ")[|row|]);
    WordEndsRow(row + " ", w);
  }

  lemma {:induction false} SpacedFields(words: seq<string>)
    requires words != [] && forall i | 0 <= i < |words| :: IsWord(words[i])
    ensures Fields(Spaced(words)) == words && ITEM_SEPARATOR !in Spaced(words) && Spaced(words) != ""
  {
    var n := |words| - 1;
    if n == 0 {
      WordEndsRow("", words[0]);
      assert "" + words[0] == words[0] && Fields("") == [];
    } else {
      SpacedFields(words[..n]);
      OneMoreWord(Spaced(words[..n]), words[n]);
      assert words == words[..n] + [words[n]];
    }
  }

  /** A row of words comes apart into them when there are several variables. */
  lemma SpacedRowSplits(words: seq<string>, nvars: nat)
    requires words != [] && nvars > 1 && forall i | 0 <= i < |words| :: IsWord(words[i])
    ensures SplitRow(Spaced(words), nvars) == words
  {
    SpacedFields(words);
  }

  // ----- live macros -----

  /** One name and the value it is given. */
  datatype Binding = Binding(name: string, value: string)

  /** A live variable is set under its name and its lower-case form. */
  function Both(lower: string -> string, name: string, value: string): seq<Binding> {
    if lower(name) != name then [Binding(name, value), Binding(lower(name), value)] else [Binding(name, value)]
  }

  /** Live variables and their values, set one after the other. */
  type Vars = seq<(string, string)>

  function Live(lower: string -> string, vars: Vars): seq<Binding> {
    if vars == [] then []
    else
      var (name, value) := vars[|vars| - 1];
      Live(lower, vars[..|vars| - 1]) + Both(lower, name, value)
  }

  function FieldAt(fields: seq<string>, i: nat): string { if i < |fields| then fields[i] else "" }

  function Named(names: seq<string>, fields: seq<string>): Vars {
    if names == [] then []
    else Named(names[..|names| - 1], fields) + [(names[|names| - 1], FieldAt(fields, |names| - 1))]
  }

  function IdVars(cluster: int, proc: nat): Vars {
    [("Cluster", Itoa(cluster)), ("ClusterId", Itoa(cluster)),
     ("Process", Itoa(proc)), ("ProcId", Itoa(proc)), ("Node", Itoa(proc))]
  }

  function Fixed(cluster: int, proc: nat, row: nat, step: nat): Vars {
    IdVars(cluster, proc) + [("Step", Itoa(step))] + [("Row", Itoa(row))] + [("ItemIndex", Itoa(row))]
  }

  /** Every live variable of an expansion, in the order they are set. */
  function AllVars(names: seq<string>, queueNum: nat, cluster: int, proc: nat, row: string): Vars
    requires queueNum >= 1
  {
    Fixed(cluster, proc, proc / queueNum, proc % queueNum)
    + [("Item", if names == [] then row else "")]
    + Named(names, SplitRow(row, |names|))
  }

  function SetAll(m: Macros, bs: seq<Binding>): Macros {
    if bs == [] then m else SetAll(m, bs[..|bs| - 1])[bs[|bs| - 1].name := bs[|bs| - 1].value]
  }

  function Expanded(apply: (Ad, Macros, Assign) -> Ad, assigns: seq<Assign>, m: Macros): Ad {
    if assigns == [] then map[] else apply(Expanded(apply, assigns[..|assigns| - 1], m), m, assigns[|assigns| - 1])
  }

  lemma {:induction false} SetAllConcat(m: Macros, a: seq<Binding>, b: seq<Binding>)
    ensures SetAll(m, a + b) == SetAll(SetAll(m, a), b)
  {
    if b == [] {
      assert a + b == a;
    } else {
      SetAllConcat(m, a, b[..|b| - 1]);
      assert (a + b)[..|a + b| - 1] == a + b[..|b| - 1];
    }
  }

  class Digest {
    const queueNum: nat
    const varNames: seq<string>
    const assigns: seq<Assign>
    const lower: string -> string
    const apply: (Ad, Macros, Assign) -> Ad
    var cfg: Macros

    constructor (queueNum: nat, varNames: seq<string>, assigns: seq<Assign>, lower: string -> string,
                 apply: (Ad, Macros, Assign) -> Ad, parsed: Macros)
      ensures this.queueNum == queueNum && this.varNames == varNames && this.assigns == assigns
      ensures this.lower == lower && this.apply == apply && cfg == parsed
    {
      this.queueNum, this.varNames, this.assigns := queueNum, varNames, assigns;
      this.lower, this.apply, cfg := lower, apply, parsed;
    }

    method SetVar(name: string, value: string)
      modifies this`cfg
      ensures cfg == SetAll(old(cfg), Both(lower, name, value))
    {
      cfg := cfg[name := value];
      assert Both(lower, name, value)[..1] == [Binding(name, value)];
      assert SetAll(old(cfg), [Binding(name, value)]) == cfg;
      if lower(name) != name {
        cfg := cfg[lower(name) := value];
      }
    }

    /** SetVar on top of the variables `done` set over `base`. */
    method SetNext(name: string, value: string, ghost base: Macros, ghost done: Vars) returns (ghost more: Vars)
      requires cfg == SetAll(base, Live(lower, done))
      modifies this`cfg
      ensures more == done + [(name, value)] && cfg == SetAll(base, Live(lower, more))
    {
      SetVar(name, value);
      more := done + [(name, value)];
      assert more[..|more| - 1] == done;
      SetAllConcat(base, Live(lower, done), Both(lower, name, value));
    }

    method SetNamed(fields: seq<string>, ghost base: Macros, ghost done: Vars)
      requires cfg == SetAll(base, Live(lower, done))
      modifies this`cfg
      ensures cfg == SetAll(base, Live(lower, done + Named(varNames, fields)))
    {
      ghost var more := done;
      for i := 0 to |varNames|
        invariant more == done + Named(varNames[..i], fields) && cfg == SetAll(base, Live(lower, more))
      {
        assert varNames[..i + 1][..i] == varNames[..i];
        var v := "";
        if i < |fields| {
          v := fields[i];
        }
        ghost var was := Named(varNames[..i], fields);
        assert done + was + [(varNames[i], v)] == done + (was + [(varNames[i], v)]);
        more := SetNext(varNames[i], v, base, more);
      }
      assert varNames[..|varNames|] == varNames;
    }

    method SetIds(cluster: int, proc: nat) returns (ghost done: Vars)
      modifies this`cfg
      ensures done == IdVars(cluster, proc)
      ensures cfg == SetAll(old(cfg), Live(lower, done))
    {
      done := SetNext("Cluster", Itoa(cluster), old(cfg), []);
      done := SetNext("ClusterId", Itoa(cluster), old(cfg), done);
      done := SetNext("Process", Itoa(proc), old(cfg), done);
      done := SetNext("ProcId", Itoa(proc), old(cfg), done);
      done := SetNext("Node", Itoa(proc), old(cfg), done);
    }

    method SetFixed(cluster: int, proc: nat, row: nat, step: nat)
      modifies this`cfg
      ensures cfg == SetAll(old(cfg), Live(lower, Fixed(cluster, proc, row, step)))
    {
      ghost var done := SetIds(cluster, proc);
      done := SetNext("Step", Itoa(step), old(cfg), done);
      done := SetNext("Row", Itoa(row), old(cfg), done);
      done := SetNext("ItemIndex", Itoa(row), old(cfg), done);
    }

    method Materialize(cluster: int, proc: nat, rawRow: string) returns (ad: Ad)
      requires queueNum >= 1
      modifies this`cfg
      ensures cfg == SetAll(old(cfg), Live(lower, AllVars(varNames, queueNum, cluster, proc, rawRow)))
      ensures ad == Expanded(apply, assigns, cfg)
    {
      SetFixed(cluster, proc, proc / queueNum, proc % queueNum);
      var fields := SplitRow(rawRow, |varNames|);
      ghost var done := SetNext("Item", if varNames == [] then rawRow else "", old(cfg),
                                Fixed(cluster, proc, proc / queueNum, proc % queueNum));
      SetNamed(fields, old(cfg), done);
      ad := map[];
      for i := 0 to |assigns|
        invariant ad == Expanded(apply, assigns[..i], cfg)
      {
        assert assigns[..i + 1][..i] == assigns[..i];
        ad := apply(ad, cfg, assigns[i]);
      }
      assert assigns[..|assigns|] == assigns;
    }
  }

  // ----- history independence -----

  function Names(bs: seq<Binding>): seq<string> { seq(|bs|, i requires 0 <= i < |bs| => bs[i].name) }

  /** The tables have the same entries except for `names`. */
  ghost predicate AgreeOutside(m: Macros, n: Macros, names: seq<string>) {
    forall k | k !in names :: (k in m <==> k in n) && (k in m ==> m[k] == n[k])
  }

  lemma {:induction false} SetsOnlyItsNames(m: Macros, bs: seq<Binding>)
    ensures AgreeOutside(SetAll(m, bs), m, Names(bs))
    ensures forall k | k in Names(bs) :: k in SetAll(m, bs)
  {
    if bs != [] {
      var n := |bs| - 1;
      SetsOnlyItsNames(m, bs[..n]);
      assert Names(bs) == Names(bs[..n]) + [bs[n].name];
    }
  }

  lemma {:induction false} SettingHidesTheRest(m: Macros, n: Macros, bs: seq<Binding>, k: string)
    requires k in Names(bs)
    ensures k in SetAll(m, bs) && k in SetAll(n, bs) && SetAll(m, bs)[k] == SetAll(n, bs)[k]
  {
    var last := |bs| - 1;
    assert Names(bs) == Names(bs[..last]) + [bs[last].name];
    if bs[last].name != k {
      SettingHidesTheRest(m, n, bs[..last], k);
    }
  }

  /** Setting the same names again wipes out every trace of earlier values. */
  lemma ResettingForgets(m: Macros, n: Macros, bs: seq<Binding>)
    requires AgreeOutside(m, n, Names(bs))
    ensures SetAll(m, bs) == SetAll(n, bs)
  {
    var a, b := SetAll(m, bs), SetAll(n, bs);
    SetsOnlyItsNames(m, bs);
    SetsOnlyItsNames(n, bs);
    forall k
      ensures (k in a <==> k in b) && (k in a ==> a[k] == b[k])
    {
      if k in Names(bs) {
        SettingHidesTheRest(m, n, bs, k);
      }
    }
    assert a.Keys == b.Keys;
  }

  lemma NamesConcat(a: seq<Binding>, b: seq<Binding>)
    ensures Names(a + b) == Names(a) + Names(b)
  {
  }

  predicate SameNames(v: Vars, w: Vars) { |v| == |w| && forall i | 0 <= i < |v| :: v[i].0 == w[i].0 }

  lemma {:induction false} LiveNames(lower: string -> string, v: Vars, w: Vars)
    requires SameNames(v, w)
    ensures Names(Live(lower, v)) == Names(Live(lower, w))
  {
    if v != [] {
      var i := |v| - 1;
      LiveNames(lower, v[..i], w[..i]);
      NamesConcat(Live(lower, v[..i]), Both(lower, v[i].0, v[i].1));
      NamesConcat(Live(lower, w[..i]), Both(lower, w[i].0, w[i].1));
      assert Names(Both(lower, v[i].0, v[i].1)) == Names(Both(lower, w[i].0, w[i].1));
    }
  }

  lemma {:induction false} NamedNames(names: seq<string>, f: seq<string>)
    ensures |Named(names, f)| == |names| && forall i | 0 <= i < |names| :: Named(names, f)[i].0 == names[i]
  {
    if names != [] {
      NamedNames(names[..|names| - 1], f);
    }
  }

  /** One of the expansions a digest has been used for. */
  datatype Use = Use(cluster: int, proc: nat, row: string)

  function UseVars(names: seq<string>, queueNum: nat, u: Use): Vars
    requires queueNum >= 1
  {
    AllVars(names, queueNum, u.cluster, u.proc, u.row)
  }

  lemma SameNamesConcat(a: Vars, b: Vars, c: Vars, x: Vars, y: Vars, z: Vars)
    requires SameNames(a, x) && SameNames(b, y) && SameNames(c, z)
    ensures SameNames(a + b + c, x + y + z)
  {
    assert SameNames(a + b, x + y);
  }

  lemma NamedSame(names: seq<string>, f: seq<string>, g: seq<string>)
    ensures SameNames(Named(names, f), Named(names, g))
  {
    NamedNames(names, f);
    NamedNames(names, g);
  }

  lemma FixedNames(c: int, p: nat, row: nat, step: nat, d: int, q: nat, row': nat, step': nat)
    ensures SameNames(Fixed(c, p, row, step), Fixed(d, q, row', step'))
  {
  }

  lemma UsesSetTheSameNames(names: seq<string>, queueNum: nat, u: Use, v: Use)
    requires queueNum >= 1
    ensures SameNames(UseVars(names, queueNum, u), UseVars(names, queueNum, v))
  {
    FixedNames(u.cluster, u.proc, u.proc / queueNum, u.proc % queueNum, v.cluster, v.proc, v.proc / queueNum,
               v.proc % queueNum);
    NamedSame(names, SplitRow(u.row, |names|), SplitRow(v.row, |names|));
    SameNamesConcat(Fixed(u.cluster, u.proc, u.proc / queueNum, u.proc % queueNum),
                    [("Item", if names == [] then u.row else "")],
                    Named(names, SplitRow(u.row, |names|)),
                    Fixed(v.cluster, v.proc, v.proc / queueNum, v.proc % queueNum),
                    [("Item", if names == [] then v.row else "")],
                    Named(names, SplitRow(v.row, |names|)));
  }

  /** The table after a sequence of expansions. */
  function After(lower: string -> string, names: seq<string>, queueNum: nat, parsed: Macros, uses: seq<Use>): Macros
    requires queueNum >= 1
  {
    if uses == [] then parsed
    else SetAll(After(lower, names, queueNum, parsed, uses[..|uses| - 1]),
                Live(lower, UseVars(names, queueNum, uses[|uses| - 1])))
  }

  lemma {:induction false} EarlierUsesAgree(lower: string -> string, names: seq<string>, queueNum: nat,
                                            parsed: Macros, uses: seq<Use>, u: Use)
    requires queueNum >= 1
    ensures AgreeOutside(After(lower, names, queueNum, parsed, uses), parsed,
                         Names(Live(lower, UseVars(names, queueNum, u))))
  {
    if uses != [] {
      var n := |uses| - 1;
      EarlierUsesAgree(lower, names, queueNum, parsed, uses[..n], u);
      UsesSetTheSameNames(names, queueNum, uses[n], u);
      LiveNames(lower, UseVars(names, queueNum, uses[n]), UseVars(names, queueNum, u));
      SetsOnlyItsNames(After(lower, names, queueNum, parsed, uses[..n]),
                       Live(lower, UseVars(names, queueNum, uses[n])));
    }
  }

  /** Whatever a digest was used for before, an expansion gives what it gives on a freshly parsed
      digest. */
  lemma MaterializeForgetsHistory(apply: (Ad, Macros, Assign) -> Ad, assigns: seq<Assign>, lower: string -> string,
                                  names: seq<string>, queueNum: nat, parsed: Macros, uses: seq<Use>, u: Use)
    requires queueNum >= 1
    ensures After(lower, names, queueNum, parsed, uses + [u]) == After(lower, names, queueNum, parsed, [u])
    ensures Expanded(apply, assigns, After(lower, names, queueNum, parsed, uses + [u]))
            == Expanded(apply, assigns, SetAll(parsed, Live(lower, UseVars(names, queueNum, u))))
  {
    EarlierUsesAgree(lower, names, queueNum, parsed, uses, u);
    ResettingForgets(After(lower, names, queueNum, parsed, uses), parsed, Live(lower, UseVars(names, queueNum, u)));
    assert (uses + [u])[..|uses|] == uses;
    assert [u][..0] == [];
    assert After(lower, names, queueNum, parsed, [u][..0]) == parsed;
  }

  // ----- what the variables are -----

  /** No later variable is set under the i-th one's name. */
  predicate Clear(lower: string -> string, vars: Vars, i: nat)
    requires i < |vars|
  {
    forall j | i < j < |vars| :: vars[j].0 != vars[i].0 && lower(vars[j].0) != vars[i].0
  }

  lemma LastSets(lower: string -> string, vars: Vars, m: Macros)
    requires vars != []
    ensures var n := |vars| - 1;
            SetAll(m, Live(lower, vars))
            == SetAll(m, Live(lower, vars[..n]))[vars[n].0 := vars[n].1][lower(vars[n].0) := vars[n].1]
  {
    var n := |vars| - 1;
    SetAllConcat(m, Live(lower, vars[..n]), Both(lower, vars[n].0, vars[n].1));
    BothSets(lower, SetAll(m, Live(lower, vars[..n])), vars[n].0, vars[n].1);
  }

  /** The table binds the name to the value. */
  predicate Binds(t: Macros, name: string, value: string) { name in t && t[name] == value }

  /** A variable that no later one overrides has its value in the table. */
  lemma {:induction false} LiveValue(lower: string -> string, vars: Vars, m: Macros, i: nat)
    requires i < |vars| && Clear(lower, vars, i)
    ensures Binds(SetAll(m, Live(lower, vars)), vars[i].0, vars[i].1)
  {
    var n := |vars| - 1;
    LastSets(lower, vars, m);
    if i < n {
      var front := vars[..n];
      assert Clear(lower, front, i) by {
        assert forall j | i < j < n :: front[j] == vars[j];
      }
      LiveValue(lower, front, m, i);
      assert vars[n].0 != vars[i].0 && lower(vars[n].0) != vars[i].0;
    }
  }

  lemma BothSets(lower: string -> string, m: Macros, name: string, value: string)
    ensures SetAll(m, Both(lower, name, value)) == m[name := value][lower(name) := value]
  {
    var bs := Both(lower, name, value);
    assert bs[..1] == [Binding(name, value)] && [Binding(name, value)][..0] == [];
    assert SetAll(m, [Binding(name, value)]) == m[name := value];
    if lower(name) == name {
      assert bs == [Binding(name, value)];
    } else {
      assert bs[..|bs| - 1] == [Binding(name, value)];
    }
  }

  lemma {:induction false} NamedAre(names: seq<string>, fields: seq<string>, i: nat)
    requires i < |names|
    ensures |Named(names, fields)| == |names|
    ensures Named(names, fields)[i] == (names[i], if i < |fields| then fields[i] else "")
  {
    var n := |names| - 1;
    if n > 0 {
      NamedAre(names[..n], fields, if i < n then i else 0);
    }
  }

  /** The variables of an expansion: the ids, the step within the row and the row, the whole row when
      the digest names no variables, and the fields of the row under the names it does give. */
  lemma VariablesAre(names: seq<string>, queueNum: nat, cluster: int, proc: nat, row: string)
    requires queueNum >= 1
    ensures var vars := AllVars(names, queueNum, cluster, proc, row);
            && |vars| == 9 + |names|
            && vars[0] == ("Cluster", Itoa(cluster)) && vars[1] == ("ClusterId", Itoa(cluster))
            && vars[2] == ("Process", Itoa(proc)) && vars[3] == ("ProcId", Itoa(proc))
            && vars[4] == ("Node", Itoa(proc)) && vars[5] == ("Step", Itoa(proc % queueNum))
            && vars[6] == ("Row", Itoa(proc / queueNum)) && vars[7] == ("ItemIndex", Itoa(proc / queueNum))
            && vars[8] == ("Item", if names == [] then row else "")
            && forall i | 9 <= i < |vars| ::
                 var fields := SplitRow(row, |names|);
                 vars[i] == (names[i - 9], if i - 9 < |fields| then fields[i - 9] else "")
  {
    var vars := AllVars(names, queueNum, cluster, proc, row);
    var fields := SplitRow(row, |names|);
    NamedNames(names, fields);
    forall i | 9 <= i < |vars|
      ensures vars[i] == (names[i - 9], if i - 9 < |fields| then fields[i - 9] else "")
    {
      NamedAre(names, fields, i - 9);
    }
  }

  /** Unless the digest's own names override them, an expansion binds the step to the remainder and the
      row to the quotient of the proc number by the repeat count, and the ids to cluster and proc. */
  lemma ExpansionBinds(lower: string -> string, names: seq<string>, queueNum: nat, cluster: int, proc: nat,
                       row: string, m: Macros, i: nat)
    requires queueNum >= 1 && i < 9 + |names|
    requires var vars := AllVars(names, queueNum, cluster, proc, row); |vars| == 9 + |names| && Clear(lower, vars, i)
    ensures var t := SetAll(m, Live(lower, AllVars(names, queueNum, cluster, proc, row)));
            var fields := SplitRow(row, |names|);
            match i
            case 0 => Binds(t, "Cluster", Itoa(cluster))
            case 1 => Binds(t, "ClusterId", Itoa(cluster))
            case 2 => Binds(t, "Process", Itoa(proc))
            case 3 => Binds(t, "ProcId", Itoa(proc))
            case 4 => Binds(t, "Node", Itoa(proc))
            case 5 => Binds(t, "Step", Itoa(proc % queueNum))
            case 6 => Binds(t, "Row", Itoa(proc / queueNum))
            case 7 => Binds(t, "ItemIndex", Itoa(proc / queueNum))
            case 8 => Binds(t, "Item", if names == [] then row else "")
            case _ => Binds(t, names[i - 9], if i - 9 < |fields| then fields[i - 9] else "")
  {
    VariablesAre(names, queueNum, cluster, proc, row);
    LiveValue(lower, AllVars(names, queueNum, cluster, proc, row), m, i);
  }
}
