/** The monitor's command template: five replacements in a row, against one simultaneous
    substitution. */
module Substitute {

  /** The placeholder that stands for a doubled percent sign between the first and last step. */
  const NUL: char := 0 as char

  /** Replaces every occurrence of a character. */
  function ReplaceChar(s: string, c: char, to: string): (r: string) {
    if s == [] then [] else (if s[0] == c then to else [s[0]]) + ReplaceChar(s[1..], c, to)
  }

  /** Replaces the leftmost occurrences of the pair `%b` that do not overlap. */
  function ReplacePair(s: string, b: char, to: string): (r: string) {
    if |s| < 2 then s
    else if s[0] == '%' && s[1] == b then to + ReplacePair(s[2..], b, to)
    else [s[0]] + ReplacePair(s[1..], b, to)
  }

  /** What the monitor does. */
  function Expand(template: string, name: string, status: string, value: string): string {
    var kept := ReplacePair(template, '%', [NUL]);
    var named := ReplacePair(kept, 'n', name);
    var rated := ReplacePair(named, 's', status);
    var valued := ReplacePair(rated, 'v', value);
    ReplaceChar(valued, NUL, "%")
  }

  predicate IsKey(c: char) {
    c == '%' || c == 'n' || c == 's' || c == 'v'
  }

  /** One pass from left to right that replaces each of the four placeholders at once. */
  function Simultaneous(t: string, percent: string, name: string, status: string, value: string): string {
    if |t| >= 2 && t[0] == '%' && IsKey(t[1]) then
      (if t[1] == '%' then percent else if t[1] == 'n' then name else if t[1] == 's' then status else value)
      + Simultaneous(t[2..], percent, name, status, value)
    else if t == [] then []
    else [t[0]] + Simultaneous(t[1..], percent, name, status, value)
  }

  // ----- conditions on the values -----

  predicate HasPair(s: string, b: char) {
    exists i :: 0 <= i < |s| - 1 && s[i] == '%' && s[i + 1] == b
  }

  predicate EndsInPercent(s: string) {
    s != [] && s[|s| - 1] == '%'
  }

  predicate CleanName(n: string) {
    NUL !in n && !HasPair(n, 's') && !HasPair(n, 'v') && !EndsInPercent(n)
  }

  predicate CleanStatus(s: string) {
    NUL !in s && !HasPair(s, 'v') && !EndsInPercent(s)
  }

  // ----- replacing pairs -----

  lemma {:induction false} ReplaceConcat(x: string, y: string, b: char, to: string)
    requires !EndsInPercent(x)
    ensures ReplacePair(x + y, b, to) == ReplacePair(x, b, to) + ReplacePair(y, b, to)
    decreases |x|
  {
    if x == [] {
      assert x + y == y;
      assert ReplacePair(x, b, to) == [];
    } else {
      hide ReplacePair;
      var k := if |x| >= 2 && x[0] == '%' && x[1] == b then 2 else 1;
      assert (x + y)[k..] == x[k..] + y;
      ReplaceConcat(x[k..], y, b, to);
      if k == 2 {
        ReplaceHit(x, b, to);
        ReplaceHit(x + y, b, to);
        Associate(to, ReplacePair(x[2..], b, to), ReplacePair(y, b, to));
      } else {
        ReplaceFirst(x, b, to);
        ReplaceFirst(x + y, b, to);
        Associate([x[0]], ReplacePair(x[1..], b, to), ReplacePair(y, b, to));
      }
    }
  }

  lemma Associate(x: string, y: string, z: string)
    ensures x + (y + z) == x + y + z
  {
  }

  lemma ReplaceHit(s: string, b: char, to: string)
    requires |s| >= 2 && s[0] == '%' && s[1] == b
    ensures ReplacePair(s, b, to) == to + ReplacePair(s[2..], b, to)
  {
  }

  /** A first character that does not begin an occurrence is copied. */
  lemma ReplaceFirst(s: string, b: char, to: string)
    requires s != [] && (s[0] != '%' || |s| == 1 || s[1] != b)
    ensures ReplacePair(s, b, to) == [s[0]] + ReplacePair(s[1..], b, to)
  {
    if |s| == 1 { assert s[1..] == []; }
  }

  lemma {:induction false} ReplaceNothing(s: string, b: char, to: string)
    requires !HasPair(s, b)
    ensures ReplacePair(s, b, to) == s
  {
    if |s| >= 2 {
      assert s[0] != '%' || s[0 + 1] != b;
      forall i | 0 <= i < |s[1..]| - 1 && s[1..][i] == '%' ensures s[1..][i + 1] != b {
        assert s[i + 1] == '%' ==> s[i + 1 + 1] != b;
      }
      ReplaceNothing(s[1..], b, to);
    }
  }

  // ----- the steps, one after the other -----

  lemma {:induction false} FirstStep(t: string)
    ensures ReplacePair(t, '%', [NUL]) == Simultaneous(t, [NUL], "%n", "%s", "%v")
    decreases |t|
  {
    if |t| >= 2 && t[0] == '%' && IsKey(t[1]) {
      FirstStep(t[2..]);
      if t[1] != '%' {
        ReplaceFirst(t, '%', [NUL]);
        ReplaceFirst(t[1..], '%', [NUL]);
        assert t[1..][1..] == t[2..];
      }
    } else if t != [] {
      FirstStep(t[1..]);
      ReplaceFirst(t, '%', [NUL]);
    }
  }

  /** One of the middle steps: it turns each piece into the next, and touches nothing else. */
  lemma {:induction false} MiddleStep(t: string, b: char, to: string, name: string, status: string, value: string,
                                      name': string, status': string, value': string)
    requires b == 'n' || b == 's' || b == 'v'
    requires !EndsInPercent(name) && !EndsInPercent(status) && !EndsInPercent(value)
    requires ReplacePair(name, b, to) == name' && ReplacePair(status, b, to) == status' && ReplacePair(value, b, to) == value'
    ensures ReplacePair(Simultaneous(t, [NUL], name, status, value), b, to) == Simultaneous(t, [NUL], name', status', value')
    decreases |t|
  {
    if |t| >= 2 && t[0] == '%' && IsKey(t[1]) {
      MiddleStep(t[2..], b, to, name, status, value, name', status', value');
      var piece := if t[1] == '%' then [NUL] else if t[1] == 'n' then name else if t[1] == 's' then status else value;
      ReplaceConcat(piece, Simultaneous(t[2..], [NUL], name, status, value), b, to);
    } else if t != [] {
      MiddleStep(t[1..], b, to, name, status, value, name', status', value');
      var rest := Simultaneous(t[1..], [NUL], name, status, value);
      assert ([t[0]] + rest)[1..] == rest;
      if t[0] == '%' && |t| > 1 {
        assert rest[0] == t[1];
      }
      ReplaceFirst([t[0]] + rest, b, to);
    }
  }

  lemma {:induction false} ReplaceCharConcat(x: string, y: string, c: char, to: string)
    ensures ReplaceChar(x + y, c, to) == ReplaceChar(x, c, to) + ReplaceChar(y, c, to)
    decreases |x|
  {
    if x == [] {
      assert x + y == y;
    } else {
      assert (x + y)[1..] == x[1..] + y;
      ReplaceCharConcat(x[1..], y, c, to);
    }
  }

  lemma {:induction false} ReplaceCharNothing(s: string, c: char, to: string)
    requires c !in s
    ensures ReplaceChar(s, c, to) == s
  {
    if s != [] { ReplaceCharNothing(s[1..], c, to); }
  }

  lemma {:induction false} LastStep(t: string, name: string, status: string, value: string)
    requires NUL !in t && NUL !in name && NUL !in status && NUL !in value
    ensures ReplaceChar(Simultaneous(t, [NUL], name, status, value), NUL, "%") == Simultaneous(t, "%", name, status, value)
    decreases |t|
  {
    if |t| >= 2 && t[0] == '%' && IsKey(t[1]) {
      LastStep(t[2..], name, status, value);
      var piece := if t[1] == '%' then [NUL] else if t[1] == 'n' then name else if t[1] == 's' then status else value;
      ReplaceCharConcat(piece, Simultaneous(t[2..], [NUL], name, status, value), NUL, "%");
      if t[1] == '%' {
        assert [NUL][1..] == [] && ReplaceChar([NUL], NUL, "%") == "%";
      } else {
        ReplaceCharNothing(piece, NUL, "%");
      }
    } else if t != [] {
      LastStep(t[1..], name, status, value);
      ReplaceCharConcat([t[0]], Simultaneous(t[1..], [NUL], name, status, value), NUL, "%");
      ReplaceCharNothing([t[0]], NUL, "%");
    }
  }

  lemma ReplaceKey(b: char, to: string)
    ensures ReplacePair(['%', b], b, to) == to
  {
    assert ['%', b][2..] == [];
    assert to + [] == to;
  }

  lemma KeyStays(k: char, b: char, to: string)
    requires k != b
    ensures ReplacePair(['%', k], b, to) == ['%', k]
  {
    ReplaceNothing(['%', k], b, to);
  }

  /** For clean names and statuses, the five replacements are one simultaneous substitution,
      whatever the template and the value, which may contain placeholders itself. */
  lemma ExpandIsSimultaneous(t: string, name: string, status: string, value: string)
    requires NUL !in t && NUL !in value && CleanName(name) && CleanStatus(status)
    ensures Expand(t, name, status, value) == Simultaneous(t, "%", name, status, value)
  {
    hide ReplacePair, ReplaceChar, Simultaneous, HasPair;
    FirstStep(t);
    ReplaceKey('n', name); KeyStays('s', 'n', name); KeyStays('v', 'n', name);
    MiddleStep(t, 'n', name, "%n", "%s", "%v", name, "%s", "%v");
    ReplaceNothing(name, 's', status); ReplaceKey('s', status); KeyStays('v', 's', status);
    MiddleStep(t, 's', status, name, "%s", "%v", name, status, "%v");
    ReplaceNothing(name, 'v', value); ReplaceNothing(status, 'v', value); ReplaceKey('v', value);
    MiddleStep(t, 'v', value, name, status, "%v", name, status, value);
    LastStep(t, name, status, value);
  }

  // ----- the conditions are needed -----

  lemma {:induction false} ReplaceSame(s: string, b: char)
    ensures ReplacePair(s, b, ['%', b]) == s
    decreases |s|
  {
    if |s| >= 2 {
      if s[0] == '%' && s[1] == b {
        ReplaceSame(s[2..], b);
        assert ['%', b] + s[2..] == s;
      } else {
        ReplaceSame(s[1..], b);
      }
    }
  }

  lemma {:induction false} ReplaceShrinks(s: string, b: char)
    ensures |ReplacePair(s, b, [])| <= |s|
    ensures HasPair(s, b) ==> |ReplacePair(s, b, [])| < |s|
    decreases |s|
  {
    if |s| >= 2 {
      if s[0] == '%' && s[1] == b {
        ReplaceShrinks(s[2..], b);
      } else {
        ReplaceShrinks(s[1..], b);
        if HasPair(s, b) {
          var i :| 0 <= i < |s| - 1 && s[i] == '%' && s[i + 1] == b;
          assert s[1..][i - 1] == '%' && s[1..][i - 1 + 1] == b;
        }
      }
    }
  }

  lemma {:induction false} ReplaceCharKeepsLength(s: string)
    ensures |ReplaceChar(s, NUL, "%")| == |s|
    ensures NUL in s ==> ReplaceChar(s, NUL, "%") != s
  {
    if s != [] {
      ReplaceCharKeepsLength(s[1..]);
      var r := ReplaceChar(s, NUL, "%");
      if NUL in s && s[0] != NUL {
        assert r[1..] == ReplaceChar(s[1..], NUL, "%");
      }
    }
  }

  /** The templates `%n` and `%nc` for a literal `c`, and likewise for the status. */
  lemma ExpandName(name: string, tail: string, status: string, value: string)
    requires tail == [] || (|tail| == 1 && tail[0] != '%')
    ensures Expand("%n" + tail, name, status, value)
            == ReplaceChar(ReplacePair(ReplacePair(name + tail, 's', status), 'v', value), NUL, "%")
    ensures Simultaneous("%n" + tail, "%", name, status, value) == name + tail
  {
    var t := "%n" + tail;
    assert t[2..] == tail;
    assert tail == [] || tail[1..] == [];
    FirstStep(t);
    assert Simultaneous(tail, [NUL], "%n", "%s", "%v") == tail;
    assert Simultaneous(tail, "%", name, status, value) == tail;
    assert ReplacePair(t, '%', [NUL]) == t;
    ReplaceHit(t, 'n', name);
    assert ReplacePair(tail, 'n', name) == tail;
  }

  lemma ExpandStatus(name: string, tail: string, status: string, value: string)
    requires tail == [] || (|tail| == 1 && tail[0] != '%')
    ensures Expand("%s" + tail, name, status, value)
            == ReplaceChar(ReplacePair(status + tail, 'v', value), NUL, "%")
    ensures Simultaneous("%s" + tail, "%", name, status, value) == status + tail
  {
    var t := "%s" + tail;
    assert t[2..] == tail;
    assert tail == [] || tail[1..] == [];
    FirstStep(t);
    assert Simultaneous(tail, [NUL], "%n", "%s", "%v") == tail;
    assert Simultaneous(tail, "%", name, status, value) == tail;
    assert ReplacePair(t, '%', [NUL]) == t;
    assert !HasPair(t, 'n');
    ReplaceNothing(t, 'n', name);
    ReplaceHit(t, 's', status);
    assert ReplacePair(tail, 's', status) == tail;
  }

  ghost predicate Differs(t: string, name: string, status: string, value: string) {
    NUL !in t && NUL !in value && Expand(t, name, status, value) != Simultaneous(t, "%", name, status, value)
  }

  /** A name that is not clean goes wrong with some template, clean status and value. */
  lemma UncleanNameDiffers(name: string) returns (t: string, status: string, value: string)
    requires !CleanName(name)
    ensures CleanStatus(status) && Differs(t, name, status, value)
  {
    hide ReplacePair, ReplaceChar, Simultaneous, Expand;
    t, status, value := "%n" + [], "%s", "%v";
    if NUL in name {
      ExpandName(name, [], status, value);
      ReplaceSame(name + [], 's'); ReplaceSame(name + [], 'v');
      ReplaceCharKeepsLength(name + []);
    } else if HasPair(name, 's') {
      status := "";
      ExpandName(name, [], status, value);
      assert name + [] == name;
      ReplaceShrinks(name, 's'); ReplaceSame(ReplacePair(name, 's', ""), 'v');
      ReplaceCharKeepsLength(ReplacePair(name, 's', ""));
    } else if HasPair(name, 'v') {
      value := "";
      ExpandName(name, [], status, value);
      assert name + [] == name;
      ReplaceSame(name, 's'); ReplaceShrinks(name, 'v');
      ReplaceCharKeepsLength(ReplacePair(name, 'v', ""));
    } else {
      t, status := "%n" + "s", "";
      ExpandName(name, "s", status, value);
      var i := |name| - 1;
      assert (name + "s")[i] == '%' && (name + "s")[i + 1] == 's';
      ReplaceShrinks(name + "s", 's'); ReplaceSame(ReplacePair(name + "s", 's', ""), 'v');
      ReplaceCharKeepsLength(ReplacePair(name + "s", 's', ""));
    }
  }

  /** A status that is not clean goes wrong with some template and value, whatever the name. */
  lemma UncleanStatusDiffers(name: string, status: string) returns (t: string, value: string)
    requires !CleanStatus(status)
    ensures Differs(t, name, status, value)
  {
    hide ReplacePair, ReplaceChar, Simultaneous, Expand;
    t, value := "%s" + [], "%v";
    if NUL in status {
      ExpandStatus(name, [], status, value);
      ReplaceSame(status + [], 'v');
      ReplaceCharKeepsLength(status + []);
    } else if HasPair(status, 'v') {
      value := "";
      ExpandStatus(name, [], status, value);
      assert status + [] == status;
      ReplaceShrinks(status, 'v');
      ReplaceCharKeepsLength(ReplacePair(status, 'v', ""));
    } else {
      t, value := "%s" + "v", "";
      ExpandStatus(name, "v", status, value);
      var i := |status| - 1;
      assert (status + "v")[i] == '%' && (status + "v")[i + 1] == 'v';
      ReplaceShrinks(status + "v", 'v');
      ReplaceCharKeepsLength(ReplacePair(status + "v", 'v', ""));
    }
  }

  /** Exactly the clean names expand correctly with every template, clean status and value. */
  lemma CleanNameIff(name: string)
    ensures CleanName(name) <==> forall t, status, value :: CleanStatus(status) ==> !Differs(t, name, status, value)
  {
    hide Expand, Simultaneous;
    if CleanName(name) {
      forall t, status, value | CleanStatus(status) ensures !Differs(t, name, status, value) {
        if NUL !in t && NUL !in value {
          ExpandIsSimultaneous(t, name, status, value);
        }
      }
    } else {
      var t, status, value := UncleanNameDiffers(name);
    }
  }

  /** Exactly the clean statuses expand correctly with every template, clean name and value. */
  lemma CleanStatusIff(status: string)
    ensures CleanStatus(status) <==> forall t, name, value :: CleanName(name) ==> !Differs(t, name, status, value)
  {
    hide Expand, Simultaneous;
    if CleanStatus(status) {
      forall t, name, value | CleanName(name) ensures !Differs(t, name, status, value) {
        if NUL !in t && NUL !in value {
          ExpandIsSimultaneous(t, name, status, value);
        }
      }
    } else {
      var t, value := UncleanStatusDiffers("", status);
      assert CleanName("");
    }
  }
}
