/** The retry specification of a stop: `SIGTERM/30/SIGKILL/5` and its relatives, read into the
    steps of a stop schedule. */
module Retry {
  import opened Respawn
  import opened Supervisor

  datatype Option<T> = None | Some(value: T)

  // ----- the string functions the parser uses -----

  predicate IsSpace(c: char) {
    || '\t' <= c <= '\r' || c == ' ' || c == '\U{85}' || c == '\U{A0}' || c == '\U{1680}'
    || '\U{2000}' <= c <= '\U{200A}' || c == '\U{2028}' || c == '\U{2029}' || c == '\U{202F}'
    || c == '\U{205F}' || c == '\U{3000}'
  }

  function Trim(s: string): (r: string)
    decreases |s|
  {
    if s == "" then s
    else if IsSpace(s[0]) then Trim(s[1..])
    else if IsSpace(s[|s| - 1]) then Trim(s[..|s| - 1])
    else s
  }

  /** The pieces between slashes; always at least one. */
  function Split(s: string): (r: seq<string>)
    ensures |r| > 0
  {
    if s == "" then [""]
    else if s[0] == '/' then [""] + Split(s[1..])
    else
      var rest := Split(s[1..]);
      [[s[0]] + rest[0]] + rest[1..]
  }

  predicate IsDigit(c: char) {
    '0' <= c <= '9'
  }

  function Value(digits: string): nat
    requires forall c :: c in digits ==> IsDigit(c)
  {
    if digits == "" then 0
    else
      var last := digits[|digits| - 1];
      assert IsDigit(last);
      10 * Value(digits[..|digits| - 1]) + (last as int - '0' as int)
  }

  /** A decimal number with an optional sign, if it fits 64 bits. */
  function Atoi(s: string): Option<int> {
    if s == "" then None
    else
      var digits := if s[0] == '-' || s[0] == '+' then s[1..] else s;
      if digits == "" || exists c :: c in digits && !IsDigit(c) then None
      else
        var n: int := if s[0] == '-' then 0 - Value(digits) else Value(digits);
        if -MAX_INT64 - 1 <= n <= MAX_INT64 then Some(n) else None
  }

  /** Upper case, as far as it can produce a letter of a signal name. */
  function UpperChar(c: char): char {
    if 'a' <= c <= 'z' then ((c as int) - 32) as char
    else if c == '\U{131}' then 'I'
    else if c == '\U{17F}' then 'S'
    else c
  }

  function Upper(s: string): (r: string)
    ensures |r| == |s| && forall i :: 0 <= i < |s| ==> r[i] == UpperChar(s[i])
  {
    seq(|s|, i requires 0 <= i < |s| => UpperChar(s[i]))
  }

  function TrimSig(s: string): string {
    if |s| >= 3 && s[..3] == "SIG" then s[3..] else s
  }

  const SIGNAL_NAMES: map<string, nat> := map[
    "HUP" := 1, "INT" := 2, "QUIT" := 3, "ILL" := 4, "TRAP" := 5, "ABRT" := 6, "IOT" := 6,
    "BUS" := 7, "FPE" := 8, "KILL" := 9, "USR1" := 10, "SEGV" := 11, "USR2" := 12, "PIPE" := 13,
    "ALRM" := 14, "TERM" := 15, "STKFLT" := 16, "CHLD" := 17, "CONT" := 18, "STOP" := 19,
    "TSTP" := 20, "TTIN" := 21, "TTOU" := 22, "URG" := 23, "XCPU" := 24, "XFSZ" := 25,
    "VTALRM" := 26, "PROF" := 27, "WINCH" := 28, "IO" := 29, "PWR" := 30, "SYS" := 31]

  const SIGKILL: nat := 9

  function ParseSignal(word: string): Option<nat> {
    var s := Trim(word);
    if s == "" then None
    else if Atoi(s).Some? then
      (var n := Atoi(s).value; if 0 < n <= 64 then Some(n) else None)
    else if TrimSig(Upper(s)) in SIGNAL_NAMES then Some(SIGNAL_NAMES[TrimSig(Upper(s))])
    else None
  }

  // ----- what a specification says -----

  /** What a piece between slashes is: a number wherever it reads as one, so a numeric signal
      is never seen as a signal. */
  datatype Token = Number(n: int) | Named(signal: nat) | Bad

  function Classify(piece: string): Token {
    var p := Trim(piece);
    if p == "" then Bad
    else if Atoi(p).Some? then Number(Atoi(p).value)
    else match ParseSignal(p) case Some(sig) => Named(sig) case None => Bad
  }

  function Tokens(pieces: seq<string>): (r: seq<Token>)
    ensures |r| == |pieces| && forall i :: 0 <= i < |r| ==> r[i] == Classify(pieces[i])
  {
    seq(|pieces|, i requires 0 <= i < |pieces| => Classify(pieces[i]))
  }

  /** A number is the timeout of the signal right before it. */
  ghost predicate TokenOk(ts: seq<Token>, i: nat)
    requires i < |ts|
  {
    !ts[i].Bad? && (ts[i].Number? ==> ts[i].n >= 0 && i > 0 && ts[i - 1].Named?)
  }

  ghost predicate WellFormed(ts: seq<Token>) {
    forall i: nat :: i < |ts| ==> TokenOk(ts, i)
  }

  function Seconds(n: int): int {
    Wrap(n * SECOND)
  }

  /** One step for each signal, with the number right after it as its timeout, or none. */
  ghost function StepsOf(ts: seq<Token>): seq<RetryStep> {
    if ts == [] then []
    else if ts[0].Named? then
      [RetryStep(ts[0].signal, if |ts| > 1 && ts[1].Number? then Seconds(ts[1].n) else 0)] + StepsOf(ts[1..])
    else StepsOf(ts[1..])
  }

  ghost function Reading(spec: string, defaultSig: nat): Schedule {
    var s := Trim(spec);
    if s == "" then BadSpec
    else if Atoi(s).Some? then
      (var n := Atoi(s).value;
       if n <= 0 then BadSpec else Steps([RetryStep(defaultSig, Seconds(n)), RetryStep(SIGKILL, Seconds(n))]))
    else if WellFormed(Tokens(Split(s))) then Steps(StepsOf(Tokens(Split(s))))
    else BadSpec
  }

  // ----- the parser -----

  lemma {:induction false} StepsOfSignal(ts: seq<Token>, sig: nat)
    ensures StepsOf(ts + [Named(sig)]) == StepsOf(ts) + [RetryStep(sig, 0)]
  {
    var more := ts + [Named(sig)];
    if ts == [] {
      assert more[1..] == [];
    } else {
      assert more[1..] == ts[1..] + [Named(sig)];
      StepsOfSignal(ts[1..], sig);
      assert |ts| > 1 ==> more[1] == ts[1];
    }
  }

  /** A number after a signal completes the step of that signal. */
  lemma {:induction false} StepsOfNumber(ts: seq<Token>, sig: nat, n: int)
    ensures StepsOf(ts + [Named(sig), Number(n)]) == StepsOf(ts) + [RetryStep(sig, Seconds(n))]
  {
    hide Seconds;
    var more := ts + [Named(sig), Number(n)];
    if ts == [] {
      assert more[1..] == [Number(n)] && more[1..][1..] == [];
    } else {
      assert more[1..] == ts[1..] + [Named(sig), Number(n)];
      StepsOfNumber(ts[1..], sig, n);
      assert |ts| > 1 ==> more[1] == ts[1];
    }
  }

  /** The steps are complete but for one that waits for its timeout. */
  ghost predicate ReadSoFar(ts: seq<Token>, i: nat, steps: seq<RetryStep>, pending: Option<nat>)
    requires i <= |ts|
  {
    && (forall j: nat :: j < i ==> TokenOk(ts, j))
    && (pending.Some? <==> i > 0 && ts[i - 1].Named?)
    && (pending.Some? ==> i > 0 && ts[i - 1] == Named(pending.value) && steps == StepsOf(ts[..i - 1]))
    && (pending.None? ==> steps == StepsOf(ts[..i]))
  }

  lemma ReadNumber(ts: seq<Token>, i: nat, steps: seq<RetryStep>, sig: nat)
    requires i < |ts| && ReadSoFar(ts, i, steps, Some(sig)) && ts[i].Number? && ts[i].n >= 0
    ensures ReadSoFar(ts, i + 1, steps + [RetryStep(sig, Seconds(ts[i].n))], None)
  {
    hide Seconds;
    assert ts[..i + 1] == ts[..i - 1] + [Named(sig), Number(ts[i].n)];
    StepsOfNumber(ts[..i - 1], sig, ts[i].n);
  }

  lemma FlushPending(ts: seq<Token>, i: nat, steps: seq<RetryStep>, pending: Option<nat>)
    requires i <= |ts| && ReadSoFar(ts, i, steps, pending)
    ensures StepsOf(ts[..i]) == steps + if pending.Some? then [RetryStep(pending.value, 0)] else []
  {
    if pending.Some? {
      assert ts[..i] == ts[..i - 1] + [Named(pending.value)];
      StepsOfSignal(ts[..i - 1], pending.value);
    }
  }

  /** Reads the tokens one by one, holding back a signal until its timeout may have come.  The
      list of steps is never empty in the end. */
  method ParseRetry(spec: string, defaultSig: nat) returns (r: Schedule)
    ensures r == Reading(spec, defaultSig)
    ensures r.Steps? ==> r.steps != []
  {
    var s := Trim(spec);
    if s == "" {
      return BadSpec;
    }
    var whole := Atoi(s);
    if whole.Some? {
      if whole.value <= 0 {
        return BadSpec;
      }
      return Steps([RetryStep(defaultSig, Seconds(whole.value)), RetryStep(SIGKILL, Seconds(whole.value))]);
    }
    r := ParsePieces(Split(s));
  }

  method ParsePieces(parts: seq<string>) returns (r: Schedule)
    requires |parts| > 0
    ensures r == if WellFormed(Tokens(parts)) then Steps(StepsOf(Tokens(parts))) else BadSpec
    ensures r.Steps? ==> r.steps != []
  {
    hide Trim, Atoi, ParseSignal, StepsOf, Seconds;
    ghost var ts := Tokens(parts);
    var steps, pending, havePending := [], 0, false;
    assert ts[..0] == [];
    NoSteps();
    for i := 0 to |parts|
      invariant ReadSoFar(ts, i, steps, if havePending then Some(pending) else None)
      invariant steps != [] || havePending || i == 0
    {
      var p := Trim(parts[i]);
      if p == "" {
        assert !TokenOk(ts, i);
        return BadSpec;
      }
      var number := Atoi(p);
      if number.Some? {
        if !havePending || number.value < 0 {
          assert !TokenOk(ts, i);
          return BadSpec;
        }
        ReadNumber(ts, i, steps, pending);
        steps := steps + [RetryStep(pending, Seconds(number.value))];
        pending, havePending := 0, false;
      } else {
        var sig := ParseSignal(p);
        if sig.None? {
          assert !TokenOk(ts, i);
          return BadSpec;
        }
        FlushPending(ts, i, steps, if havePending then Some(pending) else None);
        if havePending {
          steps := steps + [RetryStep(pending, 0)];
        }
        assert ts[..i + 1 - 1] == ts[..i];
        pending, havePending := sig.value, true;
      }
    }
    FlushPending(ts, |parts|, steps, if havePending then Some(pending) else None);
    assert ts[..|parts|] == ts;
    if havePending {
      steps := steps + [RetryStep(pending, 0)];
    }
    r := Steps(steps);
  }

  lemma NoSteps()
    ensures StepsOf([]) == []
  {
  }

  // ----- printing a schedule -----

  /** A signal by name, with or without the SIG prefix, and its timeout in seconds, if any. */
  datatype Entry = Entry(name: string, prefixed: bool, secs: Option<nat>)

  function Decimal(n: nat): (r: string) {
    if n < 10 then [('0' as int + n) as char] else Decimal(n / 10) + [('0' as int + n % 10) as char]
  }

  function SignalWord(e: Entry): string {
    if e.prefixed then "SIG" + e.name else e.name
  }

  function Words(es: seq<Entry>): seq<string> {
    if es == [] then []
    else [SignalWord(es[0])] + (if es[0].secs.Some? then [Decimal(es[0].secs.value)] else []) + Words(es[1..])
  }

  function Join(words: seq<string>): string {
    if words == [] then "" else if |words| == 1 then words[0] else words[0] + "/" + Join(words[1..])
  }

  /** A table name, and a timeout that fits. */
  ghost predicate Printable(e: Entry) {
    e.name in SIGNAL_NAMES && (e.secs.Some? ==> e.secs.value * SECOND <= MAX_INT64)
  }

  ghost function Meaning(e: Entry): RetryStep
    requires e.name in SIGNAL_NAMES
  {
    RetryStep(SIGNAL_NAMES[e.name], if e.secs.Some? then e.secs.value * SECOND else 0)
  }

  ghost function Meanings(es: seq<Entry>): seq<RetryStep>
    requires forall e :: e in es ==> Printable(e)
  {
    if es == [] then []
    else
      assert Printable(es[0]);
      [Meaning(es[0])] + Meanings(es[1..])
  }

  // ----- reading back -----

  /** No spaces and no slashes, so that neither trimming nor splitting touches it. */
  ghost predicate Solid(s: string) {
    s != "" && forall c :: c in s ==> IsDigit(c) || 'A' <= c <= 'Z'
  }

  lemma TrimSolid(s: string)
    requires s != "" && !IsSpace(s[0]) && !IsSpace(s[|s| - 1])
    ensures Trim(s) == s
  {
  }

  lemma NameIsSolid(name: string)
    requires name in SIGNAL_NAMES
    ensures Solid(name) && |name| > 1 && 'A' <= name[0] <= 'Z' && !(name[0] == 'S' && name[1] == 'I')
  {
    forall c | c in name ensures IsDigit(c) || 'A' <= c <= 'Z' {
      var i :| 0 <= i < |name| && name[i] == c;
      NameLetter(name, i);
    }
  }

  lemma NameLetter(name: string, i: nat)
    requires name in SIGNAL_NAMES && i < |name|
    ensures IsDigit(name[i]) || 'A' <= name[i] <= 'Z'
  {
    assert i == 0 || i == 1 || i == 2 || i == 3 || i == 4 || i == 5;
  }

  lemma UpperSolid(s: string)
    requires Solid(s)
    ensures Upper(s) == s
  {
    forall i | 0 <= i < |s| ensures Upper(s)[i] == s[i] { assert s[i] in s; }
  }

  lemma SolidUntrimmed(s: string)
    requires Solid(s)
    ensures Trim(s) == s
  {
    assert s[0] in s && s[|s| - 1] in s;
    TrimSolid(s);
  }

  lemma LetterIsNoNumber(s: string)
    requires s != "" && 'A' <= s[0] <= 'Z'
    ensures Atoi(s).None?
  {
    assert s[0] in s && !IsDigit(s[0]);
  }

  lemma WordIsSolid(e: Entry)
    requires e.name in SIGNAL_NAMES
    ensures Solid(SignalWord(e)) && 'A' <= SignalWord(e)[0] <= 'Z' && TrimSig(SignalWord(e)) == e.name
  {
    hide SIGNAL_NAMES;
    NameIsSolid(e.name);
    if e.prefixed {
      assert SignalWord(e)[..3] == "SIG" && SignalWord(e)[3..] == e.name;
    } else if |e.name| >= 3 {
      assert e.name[..3][0] == e.name[0] && e.name[..3][1] == e.name[1];
    }
  }

  lemma WordReadsBack(e: Entry)
    requires e.name in SIGNAL_NAMES
    ensures Classify(SignalWord(e)) == Named(SIGNAL_NAMES[e.name])
  {
    hide SIGNAL_NAMES, SignalWord, TrimSig, Trim, Atoi;
    var w := SignalWord(e);
    WordIsSolid(e);
    SolidUntrimmed(w);
    LetterIsNoNumber(w);
    UpperSolid(w);
  }

  lemma {:induction false} DecimalReadsBack(n: nat)
    ensures Solid(Decimal(n)) && (forall c :: c in Decimal(n) ==> IsDigit(c)) && Value(Decimal(n)) == n
  {
    if n >= 10 {
      DecimalReadsBack(n / 10);
      var r := Decimal(n);
      assert r[..|r| - 1] == Decimal(n / 10);
      assert r[|r| - 1] as int - '0' as int == n % 10;
    } else {
      var r := Decimal(n);
      assert r[..0] == "" && Value("") == 0;
      assert Value(r) == 10 * Value(r[..0]) + n;
    }
  }

  lemma NumberReadsBack(n: nat)
    requires n <= MAX_INT64
    ensures Classify(Decimal(n)) == Number(n)
  {
    hide Trim, Decimal, ParseSignal;
    var r := Decimal(n);
    DecimalReadsBack(n);
    SolidUntrimmed(r);
    assert r[0] in r;
  }

  lemma {:induction false} SplitWord(w: string)
    requires '/' !in w
    ensures Split(w) == [w]
  {
    if w != "" {
      assert w[0] in w;
      SplitWord(w[1..]);
      assert [w[0]] + w[1..] == w;
    }
  }

  lemma {:induction false} SplitAt(w: string, rest: string)
    requires '/' !in w
    ensures Split(w + "/" + rest) == [w] + Split(rest)
  {
    var s := w + "/" + rest;
    if w == "" {
      assert s[1..] == rest;
    } else {
      assert w[0] in w && s[0] == w[0] && s[1..] == w[1..] + "/" + rest;
      SplitAt(w[1..], rest);
      assert [w[0]] + w[1..] == w;
    }
  }

  /** Splitting undoes joining. */
  lemma {:induction false} JoinSplits(words: seq<string>)
    requires words != [] && forall w :: w in words ==> '/' !in w
    ensures Split(Join(words)) == words
  {
    assert words[0] in words;
    if |words| == 1 {
      SplitWord(words[0]);
    } else {
      SplitAt(words[0], Join(words[1..]));
      JoinSplits(words[1..]);
    }
  }

  lemma SolidHasNoSlash(s: string)
    requires Solid(s)
    ensures '/' !in s
  {
  }

  /** Every printed word is solid, and there is one at least for each entry. */
  lemma {:induction false} WordsAreSolid(es: seq<Entry>)
    requires forall e :: e in es ==> Printable(e)
    ensures |Words(es)| >= |es| && forall w :: w in Words(es) ==> Solid(w)
  {
    hide SignalWord, SIGNAL_NAMES, Decimal, Solid;
    if es != [] {
      assert es[0] in es;
      WordIsSolid(es[0]);
      if es[0].secs.Some? { DecimalReadsBack(es[0].secs.value); }
      WordsAreSolid(es[1..]);
    }
  }

  lemma {:induction false} JoinEnds(words: seq<string>)
    requires words != [] && forall w :: w in words ==> Solid(w)
    ensures Join(words) != "" && words[0] != "" && Join(words)[0] == words[0][0]
    ensures !IsSpace(Join(words)[0]) && !IsSpace(Join(words)[|Join(words)| - 1])
  {
    var w := words[0];
    assert w in words && w[0] in w && w[|w| - 1] in w;
    if |words| > 1 {
      JoinEnds(words[1..]);
      var s, t := Join(words), Join(words[1..]);
      assert s[|s| - 1] == t[|t| - 1];
    }
  }

  ghost function EntryTokens(e: Entry): seq<Token>
    requires e.name in SIGNAL_NAMES
  {
    [Named(SIGNAL_NAMES[e.name])] + if e.secs.Some? then [Number(e.secs.value)] else []
  }

  ghost function AllTokens(es: seq<Entry>): seq<Token>
    requires forall e :: e in es ==> Printable(e)
  {
    if es == [] then []
    else
      assert Printable(es[0]);
      EntryTokens(es[0]) + AllTokens(es[1..])
  }

  lemma {:induction false} WordsClassify(es: seq<Entry>)
    requires forall e :: e in es ==> Printable(e)
    ensures Tokens(Words(es)) == AllTokens(es)
  {
    hide SignalWord, SIGNAL_NAMES, Decimal, Classify;
    if es != [] {
      var e := es[0];
      assert e in es;
      WordReadsBack(e);
      if e.secs.Some? { NumberReadsBack(e.secs.value); }
      WordsClassify(es[1..]);
    }
  }

  lemma {:induction false} TokensRead(es: seq<Entry>)
    requires forall e :: e in es ==> Printable(e)
    ensures WellFormed(AllTokens(es)) && StepsOf(AllTokens(es)) == Meanings(es)
    ensures es != [] ==> AllTokens(es) != [] && AllTokens(es)[0].Named?
  {
    hide SIGNAL_NAMES, Wrap;
    if es != [] {
      var e, rest := es[0], AllTokens(es[1..]);
      assert e in es;
      TokensRead(es[1..]);
      var ts := AllTokens(es);
      if e.secs.Some? {
        WrapSmall(e.secs.value * SECOND);
        assert ts[1..][1..] == rest && ts[1] == Number(e.secs.value);
        assert StepsOf(ts[1..]) == StepsOf(rest);
      } else {
        assert ts[1..] == rest;
      }
      var k := |EntryTokens(e)|;
      forall i: nat | i < |ts| ensures TokenOk(ts, i) {
        if i >= k {
          assert TokenOk(rest, i - k);
          assert ts[i] == rest[i - k];
          assert i > k ==> ts[i - 1] == rest[i - 1 - k];
        }
      }
    }
  }

  /** Reading undoes printing: every list of named signals, prefixed or not, each with or without
      a timeout that fits, comes back as the steps it means. */
  lemma RetryReadsBack(es: seq<Entry>, defaultSig: nat)
    requires es != [] && forall e :: e in es ==> Printable(e)
    ensures Reading(Join(Words(es)), defaultSig) == Steps(Meanings(es))
  {
    hide SignalWord, SIGNAL_NAMES, Decimal, Classify, Join, Trim, Atoi, Split, StepsOf, WellFormed, Meanings, AllTokens;
    var words := Words(es);
    WordsAreSolid(es);
    forall w | w in words ensures '/' !in w { SolidHasNoSlash(w); }
    JoinSplits(words);
    JoinEnds(words);
    TrimSolid(Join(words));
    assert es[0] in es;
    WordIsSolid(es[0]);
    LetterIsNoNumber(Join(words));
    WordsClassify(es);
    TokensRead(es);
  }

  ghost predicate Blank(s: string) {
    forall c :: c in s ==> IsSpace(c)
  }

  /** Spaces around a text do not matter. */
  lemma {:induction false} SpacesDoNotMatter(a: string, s: string, b: string)
    requires Blank(a) && Blank(b)
    ensures Trim(a + s + b) == Trim(s)
    decreases |a| + |b|
  {
    if a != "" {
      assert a[0] in a;
      assert (a + s + b)[1..] == a[1..] + s + b;
      SpacesDoNotMatter(a[1..], s, b);
    } else if b != "" {
      var t, b1 := s + b, b[..|b| - 1];
      assert b[|b| - 1] in b;
      assert a + s + b == t && t[..|t| - 1] == s + b1;
      assert "" + s + b1 == s + b1;
      SpacesDoNotMatter("", s, b1);
      TrimLast(t);
    } else {
      assert a + s + b == s;
    }
  }

  /** It does not matter at which end trimming begins. */
  lemma {:induction false} TrimLast(t: string)
    requires t != "" && IsSpace(t[|t| - 1])
    ensures Trim(t) == Trim(t[..|t| - 1])
    decreases |t|
  {
    if IsSpace(t[0]) && |t| > 1 {
      TrimLast(t[1..]);
      assert t[1..][..|t| - 2] == t[..|t| - 1][1..];
    }
  }

  /** The same letters, some of them perhaps small. */
  ghost predicate SameLetters(word: string, capital: string) {
    && |word| == |capital|
    && forall i :: 0 <= i < |word| ==>
         word[i] == capital[i] || ('A' <= capital[i] <= 'Z' && word[i] as int == capital[i] as int + ('a' as int - 'A' as int))
  }

  /** Nor does the case of a signal's name. */
  lemma CaseDoesNotMatter(word: string, e: Entry)
    requires e.name in SIGNAL_NAMES && SameLetters(word, SignalWord(e))
    ensures Classify(word) == Named(SIGNAL_NAMES[e.name])
  {
    hide SIGNAL_NAMES, SignalWord, TrimSig, Trim, Atoi;
    WordIsSolid(e);
    UpperSame(word, SignalWord(e));
    var u := Upper(word);
    assert u[0] in u && u[|u| - 1] in u;
    SolidIsNoSpace(word[0]);
    SolidIsNoSpace(word[|word| - 1]);
    TrimSolid(word);
    NoNumber(word);
  }

  lemma UpperSame(word: string, capital: string)
    requires Solid(capital) && SameLetters(word, capital)
    ensures Upper(word) == capital
  {
    forall i | 0 <= i < |word| ensures Upper(word)[i] == capital[i] { assert capital[i] in capital; }
  }

  lemma SolidIsNoSpace(c: char)
    requires IsDigit(UpperChar(c)) || 'A' <= UpperChar(c) <= 'Z'
    ensures !IsSpace(c)
  {
  }

  lemma NoNumber(s: string)
    requires s != "" && 'A' <= UpperChar(s[0]) <= 'Z'
    ensures Atoi(s).None?
  {
    assert s[0] in s && !IsDigit(s[0]);
  }

  /** A bare number is short for two steps, the default signal and then KILL, each with that timeout:
      it reads as the specification that says so. */
  lemma BareNumberIsTwoSteps(spec: string, name: string, other: nat)
    requires name in SIGNAL_NAMES && Atoi(Trim(spec)).Some? && Atoi(Trim(spec)).value > 0
    ensures
      var secs := Decimal(Atoi(Trim(spec)).value);
      Reading(spec, SIGNAL_NAMES[name]) == Reading(Join([name, secs, "KILL", secs]), other)
  {
    hide SIGNAL_NAMES, Decimal, Trim, Atoi, Classify, Split, StepsOf, WellFormed, Seconds;
    var n := Atoi(Trim(spec)).value;
    BareNumberFits(spec);
    var words := [name, Decimal(n), "KILL", Decimal(n)];
    KillIsNamed();
    NameIsSolid(name);
    NameIsSolid("KILL");
    DecimalReadsBack(n);
    forall w | w in words ensures Solid(w) && '/' !in w { SolidHasNoSlash(w); }
    JoinSplits(words);
    JoinEnds(words);
    hide Join;
    TrimSolid(Join(words));
    LetterIsNoNumber(Join(words));
    WordReadsBack(Entry(name, false, None));
    WordReadsBack(Entry("KILL", false, None));
    NumberReadsBack(n);
    assert Tokens(words) == [Named(SIGNAL_NAMES[name]), Number(n), Named(SIGKILL), Number(n)];
    TwoStepsRead(SIGNAL_NAMES[name], n);
  }

  lemma KillIsNamed()
    ensures "KILL" in SIGNAL_NAMES && SIGNAL_NAMES["KILL"] == SIGKILL
  {
  }

  /** A number that is read fits 64 bits, and nothing reads as no number. */
  lemma BareNumberFits(spec: string)
    requires Atoi(Trim(spec)).Some?
    ensures Trim(spec) != "" && Atoi(Trim(spec)).value <= MAX_INT64
  {
    hide Trim, Value;
  }

  lemma TwoStepsRead(sig: nat, n: nat)
    ensures
      var ts := [Named(sig), Number(n), Named(SIGKILL), Number(n)];
      WellFormed(ts) && StepsOf(ts) == [RetryStep(sig, Seconds(n)), RetryStep(SIGKILL, Seconds(n))]
  {
    hide Seconds;
    var ts := [Named(sig), Number(n), Named(SIGKILL), Number(n)];
    NoSteps();
    StepsOfNumber([], sig, n);
    StepsOfNumber([Named(sig), Number(n)], SIGKILL, n);
    assert ts == [Named(sig), Number(n)] + [Named(SIGKILL), Number(n)];
    assert [] + [Named(sig), Number(n)] == [Named(sig), Number(n)];
  }

  // ----- steps and signals correspond -----

  ghost function Signals(ts: seq<Token>): nat {
    if ts == [] then 0 else (if ts[0].Named? then 1 else 0) + Signals(ts[1..])
  }

  /** The steps correspond to the signals of the specification, in order, and each has the number
      right after its signal as its timeout, or none. */
  lemma {:induction false} StepForSignal(ts: seq<Token>, i: nat)
    requires i < |ts| && ts[i].Named?
    ensures |StepsOf(ts)| == Signals(ts) && Signals(ts[..i]) < Signals(ts)
    ensures StepsOf(ts)[Signals(ts[..i])] ==
            RetryStep(ts[i].signal, if i + 1 < |ts| && ts[i + 1].Number? then Seconds(ts[i + 1].n) else 0)
  {
    hide Seconds;
    StepsCount(ts);
    if i > 0 {
      StepForSignal(ts[1..], i - 1);
      assert ts[..i][1..] == ts[1..][..i - 1];
    }
  }

  lemma {:induction false} StepsCount(ts: seq<Token>)
    ensures |StepsOf(ts)| == Signals(ts)
  {
    if ts != [] {
      StepsCount(ts[1..]);
    }
  }

  /** The signal token that step `k` comes from. */
  lemma {:induction false} SignalOfStep(ts: seq<Token>, k: nat) returns (i: nat)
    requires k < |StepsOf(ts)|
    ensures i < |ts| && ts[i].Named? && Signals(ts[..i]) == k && StepsOf(ts)[k].signal == ts[i].signal
  {
    hide Seconds;
    if ts[0].Named? && k == 0 {
      i := 0;
    } else {
      var j := SignalOfStep(ts[1..], if ts[0].Named? then k - 1 else k);
      i := j + 1;
      assert ts[..i][1..] == ts[1..][..j];
    }
  }

  /** A piece that reads as a number is never a signal: every step's signal comes from another
      piece, and in an accepted specification a number comes right after a signal. */
  lemma NumbersAreTimeouts(pieces: seq<string>, k: nat)
    requires k < |StepsOf(Tokens(pieces))|
    ensures exists i :: 0 <= i < |pieces| && Tokens(pieces)[i].Named? && Atoi(Trim(pieces[i])).None?
                        && StepsOf(Tokens(pieces))[k].signal == Tokens(pieces)[i].signal
    ensures WellFormed(Tokens(pieces)) ==>
      forall j: nat :: j < |pieces| && Atoi(Trim(pieces[j])).Some? ==> j > 0 && Tokens(pieces)[j - 1].Named?
  {
    hide StepsOf, Trim, Atoi, ParseSignal;
    var i := SignalOfStep(Tokens(pieces), k);
    if WellFormed(Tokens(pieces)) {
      forall j: nat | j < |pieces| && Atoi(Trim(pieces[j])).Some? ensures j > 0 && Tokens(pieces)[j - 1].Named? {
        assert TokenOk(Tokens(pieces), j);
        if Trim(pieces[j]) == "" { NothingIsNoNumber(); }
      }
    }
  }

  lemma NothingIsNoNumber()
    ensures Atoi("").None?
  {
  }

  /** So the numeric form of SIGTERM with its timeout is refused. */
  lemma NumericSignalIsRefused(defaultSig: nat)
    ensures Reading("15/30", defaultSig) == BadSpec
  {
    var s := "15/30";
    TrimSolid(s);
    assert '/' in s && !IsDigit('/');
    assert Atoi(s).None?;
    SplitAt("15", "30");
    assert "15" + "/" + "30" == s;
    var ts := Tokens(Split(s));
    assert Split(s)[0] == "15";
    TrimSolid("15");
    FifteenIsNumber();
    assert ts[0] == Classify("15");
    assert !TokenOk(ts, 0);
  }

  lemma FifteenIsNumber()
    ensures Atoi("15").Some?
  {
    var d := "15";
    assert d[..1] == "1" && d[..1][..0] == "";
    assert Value("1") == 1;
    assert Value(d) == 15;
    assert forall c :: c in d ==> IsDigit(c);
  }

  // ----- running a schedule -----

  datatype Kill = Delivered | NoProcess | Refused

  /** The process to stop: how it takes the signal of each step, and whether it is gone when the
      wait of that step ends.  A wait without a timeout ends only when it is gone. */
  datatype Target = Target(kill: nat -> Kill, gone: nat -> bool)

  datatype StopResult = Stopped | KillFailed | DidNotExit

  /** The process gets the signal of step `i` and outlives a wait that has an end. */
  predicate Outlives(steps: seq<RetryStep>, t: Target, i: nat)
    requires i < |steps|
  {
    (steps[i].signal == 0 || t.kill(i).Delivered?) && steps[i].timeout != 0 && !t.gone(i)
  }

  /** The process is gone at step `i`: there was none to signal, or it had exited when the wait
      ended, and a wait without a timeout ends only then. */
  predicate GoneAt(steps: seq<RetryStep>, t: Target, i: nat)
    requires i < |steps|
  {
    if steps[i].signal != 0 && !t.kill(i).Delivered? then t.kill(i).NoProcess? else steps[i].timeout == 0 || t.gone(i)
  }

  ghost function SentBy(steps: seq<RetryStep>): seq<nat> {
    if steps == [] then []
    else SentBy(steps[..|steps| - 1]) + (var x := steps[|steps| - 1].signal; if x == 0 then [] else [x])
  }

  /** Runs the schedule.  What is sent is a prefix of its signals, each after the first only once
      the process outlived the step before; a step without a timeout is the last; the stop succeeds
      exactly when the process is gone at the last step tried, and fails for want of exit exactly when
      the process outlives every step. */
  method RunSchedule(steps: seq<RetryStep>, t: Target) returns (r: StopResult, sent: seq<nat>, tried: nat)
    ensures tried <= |steps| && (steps != [] ==> tried > 0)
    ensures forall i: nat :: i + 1 < tried ==> Outlives(steps, t, i)
    ensures r.Stopped? <==> steps == [] || GoneAt(steps, t, tried - 1)
    ensures r.DidNotExit? <==> steps != [] && forall i: nat :: i < |steps| ==> Outlives(steps, t, i)
    ensures r.DidNotExit? ==> tried == |steps|
    ensures r.KillFailed? <==> tried > 0 && steps[tried - 1].signal != 0 && t.kill(tried - 1).Refused?
    ensures sent == SentBy(steps[..if tried > 0 && steps[tried - 1].signal != 0 && !t.kill(tried - 1).Delivered? then tried - 1 else tried])
  {
    sent, tried := [], 0;
    while tried < |steps|
      invariant tried <= |steps| && sent == SentBy(steps[..tried])
      invariant forall i: nat :: i < tried ==> Outlives(steps, t, i)
      invariant tried == |steps| ==> steps == []
    {
      var step := steps[tried];
      tried := tried + 1;
      assert steps[..tried][..tried - 1] == steps[..tried - 1];
      assert step.signal != 0 && !t.kill(tried - 1).Delivered? ==> !Outlives(steps, t, tried - 1);
      if step.signal != 0 {
        match t.kill(tried - 1)
        case NoProcess => return Stopped, sent, tried;
        case Refused => return KillFailed, sent, tried;
        case Delivered => sent := sent + [step.signal];
      }
      if step.timeout == 0 || t.gone(tried - 1) {
        assert !Outlives(steps, t, tried - 1);
        return Stopped, sent, tried;
      }
      if tried == |steps| {
        return DidNotExit, sent, tried;
      }
    }
    r := Stopped;
  }
}
