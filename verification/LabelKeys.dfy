/**
 The text a label set is keyed by: entries sorted by name, values escaped by three replacements in
 a row, joined by commas.
 */
module LabelKeys {
  datatype Label = Label(name: string, value: string)

  // -------------------------------------------------------------------- escapes

  function ReplaceAll(s: string, c: char, to: string): string {
    if s == "" then "" else (if s[0] == c then to else [s[0]]) + ReplaceAll(s[1..], c, to)
  }

  // As the code does it: backslashes first, then quotes, then newlines.
  function Escape(s: string): string {
    ReplaceAll(ReplaceAll(ReplaceAll(s, '\\', "\\\\"), '\"', "\\\""), '\n', "\\n")
  }

  function EscapeChar(c: char): string {
    if c == '\\' then "\\\\" else if c == '\"' then "\\\"" else if c == '\n' then "\\n" else [c]
  }

  function EscapeOnce(s: string): string {
    if s == "" then "" else EscapeChar(s[0]) + EscapeOnce(s[1..])
  }

  lemma {:induction false} ReplaceConcat(a: string, b: string, c: char, to: string)
    ensures ReplaceAll(a + b, c, to) == ReplaceAll(a, c, to) + ReplaceAll(b, c, to)
  {
    if a == "" {
      assert a + b == b;
    } else {
      assert (a + b)[1..] == a[1..] + b;
      ReplaceConcat(a[1..], b, c, to);
    }
  }

  // The three replacements, character by character.
  lemma EscapeOneChar(x: char)
    ensures Escape([x]) == EscapeChar(x)
  {
    assert forall c: char, to: string, y: char :: ReplaceAll([y], c, to) == if y == c then to else [y] by {
      forall c: char, to: string, y: char ensures ReplaceAll([y], c, to) == if y == c then to else [y] {
        assert [y][1..] == "";
      }
    }
    if x == '\\' {
      assert "\\\\" == ['\\'] + ['\\'];
      ReplaceConcat(['\\'], ['\\'], '\"', "\\\"");
      ReplaceConcat(['\\'], ['\\'], '\n', "\\n");
    } else if x == '\"' {
      assert "\\\"" == ['\\'] + ['\"'];
      ReplaceConcat(['\\'], ['\"'], '\n', "\\n");
    }
  }

  /** The replacements do not get in each other's way: they amount to one pass. */
  lemma {:induction false} EscapeIsOnePass(s: string)
    ensures Escape(s) == EscapeOnce(s)
  {
    if s != "" {
      var head, tail := [s[0]], s[1..];
      assert s == head + tail;
      ReplaceConcat(head, tail, '\\', "\\\\");
      var one, rest := ReplaceAll(head, '\\', "\\\\"), ReplaceAll(tail, '\\', "\\\\");
      ReplaceConcat(one, rest, '\"', "\\\"");
      ReplaceConcat(ReplaceAll(one, '\"', "\\\""), ReplaceAll(rest, '\"', "\\\""), '\n', "\\n");
      EscapeOneChar(s[0]);
      EscapeIsOnePass(tail);
    }
  }

  function Unescape(s: string): string {
    if s == "" then ""
    else if s[0] == '\\' && |s| >= 2 then [if s[1] == 'n' then '\n' else s[1]] + Unescape(s[2..])
    else [s[0]] + Unescape(s[1..])
  }

  lemma UnescapeChar(c: char, rest: string)
    ensures Unescape(EscapeChar(c) + rest) == [c] + Unescape(rest)
  {
    var e := EscapeChar(c);
    assert (e + rest)[|e|..] == rest;
  }

  /** Escaping loses nothing. */
  lemma {:induction false} UnescapeInverts(s: string)
    ensures Unescape(EscapeOnce(s)) == s
  {
    if s != "" {
      UnescapeInverts(s[1..]);
      UnescapeChar(s[0], EscapeOnce(s[1..]));
      assert s == [s[0]] + s[1..];
    }
  }

  // Where an escaped value ends: the first quote that is not escaped.
  function ValueEnd(s: string): nat {
    if s == "" || s[0] == '\"' then 0
    else if s[0] == '\\' && |s| >= 2 then 2 + ValueEnd(s[2..])
    else 1 + ValueEnd(s[1..])
  }

  lemma {:induction false} ValueEndsAtQuote(s: string, rest: string)
    requires rest != "" && rest[0] == '\"'
    ensures ValueEnd(EscapeOnce(s) + rest) == |EscapeOnce(s)|
  {
    if s == "" {
      assert EscapeOnce(s) + rest == rest;
    } else {
      ValueEndsAtQuote(s[1..], rest);
      var e, more := EscapeChar(s[0]), EscapeOnce(s[1..]) + rest;
      assert EscapeOnce(s) + rest == e + more;
      assert (e + more)[|e|..] == more;
    }
  }

  // -------------------------------------------------------------------- joining

  function PairText(l: Label): string {
    l.name + ("=\"" + (EscapeOnce(l.value) + "\""))
  }

  function Join(labels: seq<Label>): string {
    if labels == [] then "" else PairText(labels[0]) + (if |labels| == 1 then "" else "," + Join(labels[1..]))
  }

  predicate IsIdentifier(name: string) {
    name != "" && forall i | 0 <= i < |name| :: name[i] != '=' && name[i] != '\"' && name[i] != ','
  }

  predicate AreIdentifiers(labels: seq<Label>) {
    forall i | 0 <= i < |labels| :: IsIdentifier(labels[i].name)
  }

  lemma SameSplit(a: string, b: string, c: string, d: string)
    requires a + b == c + d && |a| == |c|
    ensures a == c && b == d
  {
    assert a == (a + b)[..|a|] && c == (c + d)[..|c|];
    assert b == (a + b)[|a|..] && d == (c + d)[|c|..];
  }

  // Where a name ends.
  function NameEnd(s: string): nat {
    if s == "" || s[0] == '=' then 0 else 1 + NameEnd(s[1..])
  }

  lemma {:induction false} NameEndsAtEquals(name: string, rest: string)
    requires rest != "" && rest[0] == '=' && forall i | 0 <= i < |name| :: name[i] != '='
    ensures NameEnd(name + rest) == |name|
  {
    if name == "" {
      assert name + rest == rest;
    } else {
      assert (name + rest)[1..] == name[1..] + rest;
      NameEndsAtEquals(name[1..], rest);
    }
  }

  lemma SameName(a: string, b: string, x: string, y: string)
    requires IsIdentifier(a) && IsIdentifier(b) && x != "" && y != "" && x[0] == '=' && y[0] == '='
    requires a + x == b + y
    ensures a == b && x == y
  {
    NameEndsAtEquals(a, x);
    NameEndsAtEquals(b, y);
    SameSplit(a, x, b, y);
  }

  lemma EscapeInjective(s: string, t: string)
    requires EscapeOnce(s) == EscapeOnce(t)
    ensures s == t
  {
    UnescapeInverts(s);
    UnescapeInverts(t);
  }

  lemma SamePair(l: Label, m: Label, x: string, y: string)
    requires IsIdentifier(l.name) && IsIdentifier(m.name) && PairText(l) + x == PairText(m) + y
    ensures l == m && x == y
  {
    var v, w := EscapeOnce(l.value), EscapeOnce(m.value);
    assert PairText(l) + x == l.name + ("=\"" + (v + ("\"" + x)));
    assert PairText(m) + y == m.name + ("=\"" + (w + ("\"" + y)));
    SameName(l.name, m.name, "=\"" + (v + ("\"" + x)), "=\"" + (w + ("\"" + y)));
    SameSplit("=\"", v + ("\"" + x), "=\"", w + ("\"" + y));
    ValueEndsAtQuote(l.value, "\"" + x);
    ValueEndsAtQuote(m.value, "\"" + y);
    SameSplit(v, "\"" + x, w, "\"" + y);
    SameSplit("\"", x, "\"", y);
    EscapeInjective(l.value, m.value);
  }

  lemma {:induction false} JoinInjective(a: seq<Label>, b: seq<Label>)
    requires AreIdentifiers(a) && AreIdentifiers(b) && Join(a) == Join(b)
    ensures a == b
  {
    if a != [] && b != [] {
      var x := if |a| == 1 then "" else "," + Join(a[1..]);
      var y := if |b| == 1 then "" else "," + Join(b[1..]);
      SamePair(a[0], b[0], x, y);
      if |a| > 1 {
        SameSplit(",", Join(a[1..]), ",", Join(b[1..]));
        JoinInjective(a[1..], b[1..]);
      }
      assert a == [a[0]] + a[1..] && b == [b[0]] + b[1..];
    }
  }

  // -------------------------------------------------------------------- sorting

  // A collation that is a strict total order on these names; others it may leave tied.
  ghost predicate IsOrder(before: (string, string) -> bool, names: set<string>) {
    && (forall a, b | a in names && b in names :: a != b ==> before(a, b) || before(b, a))
    && (forall a, b | a in names && b in names :: !(before(a, b) && before(b, a)))
    && (forall a, b, c | a in names && b in names && c in names :: before(a, b) && before(b, c) ==> before(a, c))
  }

  ghost function Names(labels: seq<Label>): set<string> {
    set i | 0 <= i < |labels| :: labels[i].name
  }

  // An order on the names of some labels is one on those of fewer.
  lemma OrderedFewer(few: seq<Label>, many: seq<Label>, before: (string, string) -> bool)
    requires IsOrder(before, Names(many)) && forall x | x in few :: x in many
    ensures IsOrder(before, Names(few)) && Names(few) <= Names(many)
  {
    forall name | name in Names(few) ensures name in Names(many) {
      var i :| 0 <= i < |few| && few[i].name == name;
      assert few[i] in few;
      var j :| 0 <= j < |many| && many[j] == few[i];
    }
  }

  ghost predicate Sorted(labels: seq<Label>, before: (string, string) -> bool) {
    forall i, j | 0 <= i < j < |labels| :: before(labels[i].name, labels[j].name)
  }

  ghost predicate DistinctNames(labels: seq<Label>) {
    forall i, j | 0 <= i < j < |labels| :: labels[i].name != labels[j].name
  }

  function Insert(l: Label, labels: seq<Label>, before: (string, string) -> bool): seq<Label> {
    if labels == [] || before(l.name, labels[0].name) then [l] + labels
    else [labels[0]] + Insert(l, labels[1..], before)
  }

  function Sort(labels: seq<Label>, before: (string, string) -> bool): seq<Label> {
    if labels == [] then [] else Insert(labels[0], Sort(labels[1..], before), before)
  }

  lemma {:induction false} InsertElements(l: Label, labels: seq<Label>, before: (string, string) -> bool, x: Label)
    ensures x in Insert(l, labels, before) <==> x == l || x in labels
  {
    if labels != [] && !before(l.name, labels[0].name) {
      InsertElements(l, labels[1..], before, x);
      assert x in labels <==> x == labels[0] || x in labels[1..];
    }
  }

  lemma InsertFirst(l: Label, labels: seq<Label>, before: (string, string) -> bool)
    requires IsOrder(before, Names(labels) + {l.name})
    requires Sorted(labels, before) && labels != [] && before(l.name, labels[0].name)
    ensures Sorted([l] + labels, before)
  {
    forall j | 0 <= j < |labels| ensures before(l.name, labels[j].name) {
      assert labels[0].name in Names(labels) && labels[j].name in Names(labels);
      assert j > 0 ==> before(labels[0].name, labels[j].name);
    }
  }

  lemma InsertLater(l: Label, labels: seq<Label>, before: (string, string) -> bool)
    requires IsOrder(before, Names(labels) + {l.name}) && Sorted(labels, before) && labels != []
    requires labels[0].name != l.name && !before(l.name, labels[0].name)
    requires Sorted(Insert(l, labels[1..], before), before)
    ensures Sorted([labels[0]] + Insert(l, labels[1..], before), before)
  {
    var rest := Insert(l, labels[1..], before);
    assert labels[0].name in Names(labels);
    forall j | 0 <= j < |rest| ensures before(labels[0].name, rest[j].name) {
      InsertElements(l, labels[1..], before, rest[j]);
      if rest[j] in labels[1..] {
        var k :| 0 <= k < |labels[1..]| && labels[1..][k] == rest[j];
        assert labels[k + 1] == rest[j];
      }
    }
  }

  lemma {:induction false} InsertSorted(l: Label, labels: seq<Label>, before: (string, string) -> bool)
    requires IsOrder(before, Names(labels) + {l.name})
    requires Sorted(labels, before) && forall m | m in labels :: m.name != l.name
    ensures Sorted(Insert(l, labels, before), before)
  {
    if labels != [] {
      if before(l.name, labels[0].name) {
        InsertFirst(l, labels, before);
      } else {
        OrderedFewer(labels[1..], labels, before);
        assert labels[0] in labels;
        InsertSorted(l, labels[1..], before);
        InsertLater(l, labels, before);
      }
    }
  }

  lemma {:induction false} SortSorts(labels: seq<Label>, before: (string, string) -> bool)
    requires IsOrder(before, Names(labels)) && DistinctNames(labels)
    ensures Sorted(Sort(labels, before), before)
    ensures forall x :: x in Sort(labels, before) <==> x in labels
  {
    if labels != [] {
      var tail := labels[1..];
      OrderedFewer(tail, labels, before);
      SortSorts(tail, before);
      OrderedFewer(Sort(tail, before), tail, before);
      assert labels[0].name in Names(labels);
      forall m | m in Sort(tail, before) ensures m.name != labels[0].name {
        var k :| 0 <= k < |tail| && tail[k] == m;
        assert labels[k + 1] == m;
      }
      InsertSorted(labels[0], Sort(tail, before), before);
      forall x ensures x in Sort(labels, before) <==> x in labels {
        InsertElements(labels[0], Sort(tail, before), before, x);
        assert x in labels <==> x == labels[0] || x in tail;
      }
    }
  }

  // The least element comes first, so a sorted list is determined by what it holds.
  lemma SortedFirst(a: seq<Label>, b: seq<Label>, before: (string, string) -> bool)
    requires IsOrder(before, Names(a)) && Sorted(a, before) && Sorted(b, before) && a != [] && b != []
    requires a[0] in b && b[0] in a
    ensures a[0] == b[0]
  {
    var i :| 0 <= i < |b| && b[i] == a[0];
    var j :| 0 <= j < |a| && a[j] == b[0];
    var x, y := a[0].name, b[0].name;
    assert x in Names(a) && y == a[j].name && y in Names(a);
    assert (i > 0 ==> before(y, x)) && (j > 0 ==> before(x, y));
  }

  lemma {:induction false} SortedUnique(a: seq<Label>, b: seq<Label>, before: (string, string) -> bool)
    requires IsOrder(before, Names(a)) && Sorted(a, before) && Sorted(b, before)
    requires forall x :: x in a <==> x in b
    ensures a == b
  {
    assert b != [] ==> b[0] in b;
    assert a != [] ==> a[0] in a;
    if a != [] {
      SortedFirst(a, b, before);
      SameRest(a, b, before);
      OrderedFewer(a[1..], a, before);
      SortedUnique(a[1..], b[1..], before);
      assert a == [a[0]] + a[1..] && b == [b[0]] + b[1..];
    }
  }

  lemma SameRest(a: seq<Label>, b: seq<Label>, before: (string, string) -> bool)
    requires IsOrder(before, Names(a)) && Sorted(a, before) && Sorted(b, before) && a != [] && b != [] && a[0] == b[0]
    requires forall x :: x in a <==> x in b
    ensures Sorted(a[1..], before) && Sorted(b[1..], before)
    ensures forall x :: x in a[1..] <==> x in b[1..]
  {
    OrderedFewer(b, a, before);
    forall x ensures x in a[1..] <==> x in b[1..] {
      RestWithoutFirst(a, before, x);
      RestWithoutFirst(b, before, x);
    }
  }

  lemma RestWithoutFirst(a: seq<Label>, before: (string, string) -> bool, x: Label)
    requires IsOrder(before, Names(a)) && Sorted(a, before) && a != []
    ensures x in a[1..] <==> x in a && x != a[0]
  {
    assert x in a <==> x == a[0] || x in a[1..];
    if x in a[1..] {
      var k :| 0 <= k < |a[1..]| && a[1..][k] == x;
      assert before(a[0].name, a[k + 1].name);
    }
  }

  // -------------------------------------------------------------------- the key

  function EscapedPair(l: Label): string {
    l.name + ("=\"" + (Escape(l.value) + "\""))
  }

  function JoinEscaped(labels: seq<Label>): string {
    if labels == [] then "" else EscapedPair(labels[0]) + (if |labels| == 1 then "" else "," + JoinEscaped(labels[1..]))
  }

  function LabelsKey(labels: seq<Label>, before: (string, string) -> bool): string {
    JoinEscaped(Sort(labels, before))
  }

  lemma {:induction false} JoinIsOnePass(labels: seq<Label>)
    ensures JoinEscaped(labels) == Join(labels)
  {
    if labels != [] {
      EscapeIsOnePass(labels[0].value);
      JoinIsOnePass(labels[1..]);
    }
  }

  /** Two label sets have one key exactly when they hold the same names with the same values, in any order. */
  lemma KeyIsTheSet(a: seq<Label>, b: seq<Label>, before: (string, string) -> bool)
    requires IsOrder(before, Names(a)) && IsOrder(before, Names(b))
    requires AreIdentifiers(a) && AreIdentifiers(b) && DistinctNames(a) && DistinctNames(b)
    ensures LabelsKey(a, before) == LabelsKey(b, before) <==> forall x :: x in a <==> x in b
  {
    var s, t := Sort(a, before), Sort(b, before);
    SortSorts(a, before);
    SortSorts(b, before);
    JoinIsOnePass(s);
    JoinIsOnePass(t);
    if LabelsKey(a, before) == LabelsKey(b, before) {
      SortedIdentifiers(a, s);
      SortedIdentifiers(b, t);
      JoinInjective(s, t);
    }
    if forall x :: x in a <==> x in b {
      OrderedFewer(s, a, before);
      SortedUnique(s, t, before);
    }
  }

  lemma KnownEscapes()
    ensures Escape("\\") == "\\\\" && Escape("\"") == "\\\"" && Escape("\n") == "\\n" && Escape("2") == "2"
  {
    EscapeOneChar('\\');
    EscapeOneChar('\"');
    EscapeOneChar('\n');
    EscapeOneChar('2');
  }

  lemma SortsTwo(a: Label, b: Label, before: (string, string) -> bool)
    requires before(a.name, b.name) && !before(b.name, a.name)
    ensures Sort([b, a], before) == [a, b]
  {
    assert [b, a][1..] == [a] && [a][1..] == [];
    assert Sort([a], before) == [a];
    assert Insert(b, [a], before) == [a] + Insert(b, [], before);
  }

  /** The text of two labels: in the order of the names, the names bare, the values quoted, a comma between. */
  lemma KeyOfTwo(a: Label, b: Label, before: (string, string) -> bool)
    requires before(a.name, b.name) && !before(b.name, a.name)
    ensures LabelsKey([b, a], before)
            == a.name + "=\"" + Escape(a.value) + "\"" + "," + b.name + "=\"" + Escape(b.value) + "\""
  {
    SortsTwo(a, b, before);
    assert [a, b][1..] == [b];
    assert JoinEscaped([b]) == EscapedPair(b);
    assert JoinEscaped([a, b]) == EscapedPair(a) + ("," + EscapedPair(b));
    PairInLine(a);
    PairInLine(b);
  }

  lemma PairInLine(l: Label)
    ensures EscapedPair(l) == l.name + "=\"" + Escape(l.value) + "\""
  {
  }

  lemma SortedIdentifiers(a: seq<Label>, s: seq<Label>)
    requires AreIdentifiers(a) && forall x :: x in s <==> x in a
    ensures AreIdentifiers(s)
  {
    forall i | 0 <= i < |s| ensures IsIdentifier(s[i].name) {
      assert s[i] in s;
      assert s[i] in a;
    }
  }
}
