/** The parameter parser of workflow directives: `key="value"` pairs with escaped quotes. */
module InvokeParams {
  import opened Wrappers

  /** `\w` is left to the regular expression engine; only what the pattern relies on is fixed. */
  ghost predicate WordClass(word: char -> bool) {
    !word('=') && !word('"') && !word(' ')
  }

  datatype Found = Found(key: string, raw: string, rest: string)

  datatype Value<J> = Text(text: string) | Json(json: J)

  // ---------------------------------------------------------------- the pattern, declaratively

  /** The language of `(?:[^"\\]|\\.)*`. */
  predicate Body(s: string) {
    || s == []
    || (s[0] != '"' && s[0] != '\\' && Body(s[1..]))
    || (|s| >= 2 && s[0] == '\\' && s[1] != '\n' && Body(s[2..]))
  }

  predicate IsWord(word: char -> bool, s: string) {
    s != [] && forall i :: 0 <= i < |s| ==> word(s[i])
  }

  /** `s` starts with a match of the whole pattern. */
  predicate Matches(word: char -> bool, s: string, f: Found) {
    IsWord(word, f.key) && Body(f.raw) && s == f.key + "=\"" + f.raw + "\"" + f.rest
  }

  // ---------------------------------------------------------------- the scanner

  /** The length of the longest prefix of word characters. */
  function WordLength(word: char -> bool, s: string): (n: nat)
    ensures n <= |s| && (forall i :: 0 <= i < n ==> word(s[i])) && (n < |s| ==> !word(s[n]))
  {
    if s == [] || !word(s[0]) then 0 else 1 + WordLength(word, s[1..])
  }

  /** How many characters precede the first unescaped quote. */
  function ValueLength(s: string): (n: Option<nat>)
    ensures n.Some? ==> n.value < |s|
  {
    if s == [] then None
    else if s[0] == '"' then Some(0)
    else
      var skip := if s[0] == '\\' then 2 else 1;
      if |s| < skip || (skip == 2 && s[1] == '\n') then None
      else
        match ValueLength(s[skip..])
        case None => None
        case Some(n) => Some(n + skip)
  }

  function Match(word: char -> bool, s: string): (f: Option<Found>)
    ensures f.Some? ==> |f.value.rest| < |s|
  {
    var n := WordLength(word, s);
    if n == 0 || !("=\"" <= s[n..]) then None
    else
      var tail := s[n + 2..];
      match ValueLength(tail)
      case None => None
      case Some(m) => Some(Found(s[..n], tail[..m], tail[m + 1..]))
  }

  /** All matches from left to right, none overlapping. */
  function FindAll(word: char -> bool, s: string): seq<Found>
    decreases |s|
  {
    if s == [] then []
    else
      match Match(word, s)
      case None => FindAll(word, s[1..])
      case Some(f) => [f] + FindAll(word, f.rest)
  }

  function Unescape(s: string): string {
    if s == [] then []
    else if |s| >= 2 && s[0] == '\\' && s[1] != '\n' then [s[1]] + Unescape(s[2..])
    else [s[0]] + Unescape(s[1..])
  }

  /** Values that look like JSON are decoded when they can be. */
  function Interpret<J>(decode: string -> Option<J>, s: string): Value<J> {
    if s != [] && (s[0] == '{' || s[0] == '[') then
      (match decode(s)
       case Some(j) => Json(j)
       case None => Text(s))
    else Text(s)
  }

  function Collect<J>(decode: string -> Option<J>, found: seq<Found>): map<string, Value<J>> {
    if |found| == 0 then map[]
    else
      var last := found[|found| - 1];
      Collect(decode, found[..|found| - 1])[last.key := Interpret(decode, Unescape(last.raw))]
  }

  lemma EmptyCollects<J>(decode: string -> Option<J>)
    ensures Collect(decode, []) == map[]
  {
  }

  lemma CollectsMore<J>(decode: string -> Option<J>, found: seq<Found>, f: Found)
    ensures Collect(decode, found + [f]) == Collect(decode, found)[f.key := Interpret(decode, Unescape(f.raw))]
  {
    hide Unescape, Interpret;
    assert (found + [f])[..|found|] == found;
  }

  method ParseInvokeParams<J>(word: char -> bool, decode: string -> Option<J>,
                              raw: string) returns (result: map<string, Value<J>>)
    ensures result == Collect(decode, FindAll(word, raw))
  {
    hide Match, Unescape, Interpret, Collect;
    EmptyCollects(decode);
    result := map[];
    var rest := raw;
    ghost var found: seq<Found> := [];
    while rest != []
      invariant found + FindAll(word, rest) == FindAll(word, raw)
      invariant result == Collect(decode, found)
      decreases |rest|
    {
      match Match(word, rest) {
        case None => rest := rest[1..];
        case Some(kv) =>
          result := result[kv.key := Interpret(decode, Unescape(kv.raw))];
          CollectsMore(decode, found, kv);
          assert found + ([kv] + FindAll(word, kv.rest)) == found + [kv] + FindAll(word, kv.rest);
          found, rest := found + [kv], kv.rest;
      }
    }
    assert found + [] == found;
  }

  // ---------------------------------------------------------------- the scanner is the pattern

  /** The value ends at the first quote that is not escaped: the only place where a body of the
      pattern can be followed by a quote. */
  lemma {:induction false} ValueEndsAtFirstQuote(s: string, n: nat)
    ensures ValueLength(s) == Some(n) <==> n < |s| && s[n] == '"' && Body(s[..n])
  {
    if s != [] && s[0] != '"' {
      var skip := if s[0] == '\\' then 2 else 1;
      if |s| >= skip && !(skip == 2 && s[1] == '\n') {
        if n >= skip {
          ValueEndsAtFirstQuote(s[skip..], n - skip);
          if n <= |s| { assert s[..n][skip..] == s[skip..][..n - skip]; }
        }
      }
    }
  }

  /** The scanner finds a match at the start of a string exactly when the pattern has one, and the
      same one: no other way to split the string matches. */
  lemma MatchIffPattern(word: char -> bool, s: string, f: Found)
    requires WordClass(word)
    ensures Match(word, s) == Some(f) <==> Matches(word, s, f)
  {
    hide Match, Matches;
    if Matches(word, s, f) { MatchesIsFound(word, s, f); }
    if Match(word, s) == Some(f) { FoundMatches(word, s, f); }
  }

  lemma MatchesIsFound(word: char -> bool, s: string, f: Found)
    requires WordClass(word) && Matches(word, s, f)
    ensures Match(word, s) == Some(f)
  {
    hide Body, WordLength, ValueLength;
    var n, m := |f.key|, |f.raw|;
    var tail := f.raw + "\"" + f.rest;
    assert s == f.key + "=\"" + tail;
    Parts(f.key, tail, s);
    Quoted(f.raw, f.rest, tail);
    WordEndsAt(word, s, n);
    ValueEndsAtFirstQuote(tail, m);
  }

  lemma Parts(key: string, tail: string, s: string)
    requires s == key + "=\"" + tail
    ensures |key| < |s| && s[..|key|] == key && s[|key|] == '=' && "=\"" <= s[|key|..] && s[|key| + 2..] == tail
    ensures forall i :: 0 <= i < |key| ==> s[i] == key[i]
  {
  }

  lemma Quoted(raw: string, rest: string, tail: string)
    requires tail == raw + "\"" + rest
    ensures |raw| < |tail| && tail[..|raw|] == raw && tail[|raw|] == '"' && tail[|raw| + 1..] == rest
  {
  }

  lemma FoundMatches(word: char -> bool, s: string, f: Found)
    requires WordClass(word) && Match(word, s) == Some(f)
    ensures Matches(word, s, f)
  {
    hide Body, WordLength, ValueLength;
    var n := WordLength(word, s);
    var tail := s[n + 2..];
    var m := ValueLength(tail).value;
    ValueEndsAtFirstQuote(tail, m);
    Joined(s, n, tail, m);
  }

  lemma Joined(s: string, n: nat, tail: string, m: nat)
    requires n <= |s| && "=\"" <= s[n..] && tail == s[n + 2..] && m < |tail| && tail[m] == '"'
    ensures s == s[..n] + "=\"" + tail[..m] + "\"" + tail[m + 1..]
  {
    var raw, rest := tail[..m], tail[m + 1..];
    assert tail == raw + ("\"" + rest);
    assert s[n..] == "=\"" + tail;
    assert s == s[..n] + s[n..];
    Flatten(s[..n], "=\"", raw, "\"", rest);
  }

  lemma Flatten(a: string, b: string, c: string, d: string, e: string)
    ensures a + (b + (c + (d + e))) == a + b + c + d + e
  {
  }

  lemma {:induction false} WordEndsAt(word: char -> bool, s: string, n: nat)
    requires n < |s| && (forall i :: 0 <= i < n ==> word(s[i])) && !word(s[n])
    ensures WordLength(word, s) == n
  {
  }

  /** Text without parameters is exactly text in which the pattern matches nowhere. */
  lemma {:induction false} NothingFoundIff(word: char -> bool, s: string)
    requires WordClass(word)
    ensures FindAll(word, s) == [] <==> forall i, f :: 0 <= i < |s| ==> !Matches(word, s[i..], f)
    decreases |s|
  {
    hide Match, Matches;
    if s != [] {
      assert s[0..] == s;
      forall f ensures Match(word, s) == Some(f) <==> Matches(word, s, f) { MatchIffPattern(word, s, f); }
      if Match(word, s).None? {
        NothingFoundIff(word, s[1..]);
        assert forall i :: 0 <= i < |s| - 1 ==> s[1..][i..] == s[i + 1..];
        assert forall i :: 1 <= i < |s| ==> s[i..] == s[1..][i - 1..];
      } else {
        assert Matches(word, s[0..], Match(word, s).value);
      }
    }
  }

  // ---------------------------------------------------------------- printing

  datatype Pair = Pair(key: string, value: string)

  function Escape(v: string): string {
    if v == [] then []
    else (if v[0] == '"' || v[0] == '\\' then ['\\', v[0]] else [v[0]]) + Escape(v[1..])
  }

  function PrintPair(p: Pair): string {
    p.key + "=\"" + Escape(p.value) + "\""
  }

  function Print(pairs: seq<Pair>): string {
    if |pairs| == 0 then ""
    else PrintPair(pairs[0]) + (if |pairs| == 1 then "" else " " + Print(pairs[1..]))
  }

  lemma {:induction false} EscapedIsBody(v: string)
    ensures Body(Escape(v)) && Unescape(Escape(v)) == v
  {
    if v != [] {
      EscapedIsBody(v[1..]);
      EscapedCharacter(v[0], Escape(v[1..]));
    }
  }

  lemma EscapedCharacter(c: char, s: string)
    requires Body(s)
    ensures var t := (if c == '"' || c == '\\' then ['\\', c] else [c]) + s; Body(t) && Unescape(t) == [c] + Unescape(s)
  {
    var head := if c == '"' || c == '\\' then ['\\', c] else [c];
    assert (head + s)[|head|..] == s;
  }

  lemma PairIsFound(word: char -> bool, p: Pair, rest: string)
    requires WordClass(word) && IsWord(word, p.key)
    ensures FindAll(word, PrintPair(p) + rest) == [Found(p.key, Escape(p.value), rest)] + FindAll(word, rest)
  {
    hide Match, Escape;
    var s := PrintPair(p) + rest;
    EscapedIsBody(p.value);
    assert s == p.key + "=\"" + Escape(p.value) + "\"" + rest;
    MatchesIsFound(word, s, Found(p.key, Escape(p.value), rest));
  }

  lemma SpaceIsSkipped(word: char -> bool, s: string)
    requires WordClass(word)
    ensures FindAll(word, " " + s) == FindAll(word, s)
  {
    assert (" " + s)[1..] == s;
  }

  /** `found` holds the printed pairs, in order. */
  ghost predicate AreFound(found: seq<Found>, pairs: seq<Pair>) {
    && |found| == |pairs|
    && forall i :: 0 <= i < |pairs| ==> found[i].key == pairs[i].key && found[i].raw == Escape(pairs[i].value)
  }

  lemma AreFoundCons(f: Found, found: seq<Found>, pairs: seq<Pair>)
    requires |pairs| > 0 && AreFound(found, pairs[1..])
    requires f.key == pairs[0].key && f.raw == Escape(pairs[0].value)
    ensures AreFound([f] + found, pairs)
  {
    forall i | 0 <= i < |pairs|
      ensures ([f] + found)[i].key == pairs[i].key && ([f] + found)[i].raw == Escape(pairs[i].value) {
      if i > 0 { assert ([f] + found)[i] == found[i - 1] && pairs[i] == pairs[1..][i - 1]; }
    }
  }

  /** What `FindAll` finds in printed text are the printed pairs. */
  lemma {:induction false} PrintedIsFound(word: char -> bool, pairs: seq<Pair>)
    requires WordClass(word) && forall i :: 0 <= i < |pairs| ==> IsWord(word, pairs[i].key)
    ensures AreFound(FindAll(word, Print(pairs)), pairs)
  {
    hide FindAll, Escape, PrintPair, IsWord, AreFound, WordClass;
    if |pairs| == 0 {
      EmptyFindsNone(word);
      NothingIsFound(pairs);
    } else if |pairs| == 1 {
      PairIsFound(word, pairs[0], "");
      EmptyFindsNone(word);
      NothingIsFound(pairs[1..]);
      assert Print(pairs) == PrintPair(pairs[0]) + "";
      AreFoundCons(Found(pairs[0].key, Escape(pairs[0].value), ""), [], pairs);
    } else {
      var tail := Print(pairs[1..]);
      PrintedIsFound(word, pairs[1..]);
      PairIsFound(word, pairs[0], " " + tail);
      SpaceIsSkipped(word, tail);
      assert Print(pairs) == PrintPair(pairs[0]) + (" " + tail);
      AreFoundCons(Found(pairs[0].key, Escape(pairs[0].value), " " + tail), FindAll(word, tail), pairs);
    }
  }

  lemma NothingIsFound(pairs: seq<Pair>)
    requires pairs == []
    ensures AreFound([], pairs)
  {
  }

  lemma EmptyFindsNone(word: char -> bool)
    ensures FindAll(word, "") == []
  {
  }

  function Expected<J>(decode: string -> Option<J>, pairs: seq<Pair>): map<string, Value<J>> {
    if |pairs| == 0 then map[]
    else
      var last := pairs[|pairs| - 1];
      Expected(decode, pairs[..|pairs| - 1])[last.key := Interpret(decode, last.value)]
  }

  lemma {:induction false} CollectIsExpected<J>(decode: string -> Option<J>, found: seq<Found>, pairs: seq<Pair>)
    requires |found| == |pairs|
    requires forall i :: 0 <= i < |pairs| ==> found[i].key == pairs[i].key && found[i].raw == Escape(pairs[i].value)
    ensures Collect(decode, found) == Expected(decode, pairs)
  {
    if |pairs| > 0 {
      var n := |pairs| - 1;
      CollectIsExpected(decode, found[..n], pairs[..n]);
      EscapedIsBody(pairs[n].value);
    }
  }

  /** Parsing inverts printing for any pairs with word keys: a repeated key keeps its last value,
      and values are decoded only where they look like JSON. */
  lemma ParseInvertsPrint<J>(word: char -> bool, decode: string -> Option<J>, pairs: seq<Pair>)
    requires WordClass(word) && forall i :: 0 <= i < |pairs| ==> IsWord(word, pairs[i].key)
    ensures Collect(decode, FindAll(word, Print(pairs))) == Expected(decode, pairs)
  {
    hide FindAll, Collect, Expected, Print, Escape;
    PrintedIsFound(word, pairs);
    assert AreFound(FindAll(word, Print(pairs)), pairs);
    CollectIsExpected(decode, FindAll(word, Print(pairs)), pairs);
  }

  /** With distinct keys and values that do not look like JSON, the result is exactly those pairs. */
  lemma {:induction false} PlainPairsComeBack<J>(decode: string -> Option<J>, pairs: seq<Pair>)
    requires forall i, j :: 0 <= i < j < |pairs| ==> pairs[i].key != pairs[j].key
    requires forall i :: 0 <= i < |pairs| ==>
             pairs[i].value == "" || (pairs[i].value[0] != '{' && pairs[i].value[0] != '[')
    ensures forall k :: k in Expected(decode, pairs) ==> exists i :: 0 <= i < |pairs| && pairs[i].key == k
    ensures forall i :: 0 <= i < |pairs| ==>
              pairs[i].key in Expected(decode, pairs) && Expected(decode, pairs)[pairs[i].key] == Text(pairs[i].value)
  {
    if |pairs| > 0 {
      var n := |pairs| - 1;
      var before, after := Expected(decode, pairs[..n]), Expected(decode, pairs);
      PlainPairsComeBack(decode, pairs[..n]);
      assert after == before[pairs[n].key := Text(pairs[n].value)];
      forall k | k in after ensures exists i :: 0 <= i < |pairs| && pairs[i].key == k {
        if k != pairs[n].key {
          var i :| 0 <= i < n && pairs[..n][i].key == k;
          assert pairs[i].key == k;
        }
      }
      forall i | 0 <= i < |pairs| ensures pairs[i].key in after && after[pairs[i].key] == Text(pairs[i].value) {
        if i < n { assert pairs[..n][i] == pairs[i]; }
      }
    }
  }

  /** A value that starts with a brace or a bracket is decoded if it can be, and kept as text if not. */
  lemma BracketedValueIsDecoded<J>(word: char -> bool, decode: string -> Option<J>, p: Pair)
    requires WordClass(word) && IsWord(word, p.key) && p.value != "" && (p.value[0] == '{' || p.value[0] == '[')
    ensures var parsed := Collect(decode, FindAll(word, Print([p])));
            && parsed.Keys == {p.key}
            && (decode(p.value).Some? ==> parsed[p.key] == Json(decode(p.value).value))
            && (decode(p.value).None? ==> parsed[p.key] == Text(p.value))
  {
    hide FindAll, Collect, Print, WordClass, IsWord;
    ParseInvertsPrint(word, decode, [p]);
    assert [p][..0] == [];
    assert Expected(decode, [p][..0]) == map[];
  }

  /** `t` is `s` without the backslash of each escaped pair: any character but a line break can be escaped. */
  predicate Unescaped(s: string, t: string) {
    if s == [] then t == []
    else if |s| >= 2 && s[0] == '\\' && s[1] != '\n' then t != [] && t[0] == s[1] && Unescaped(s[2..], t[1..])
    else t != [] && t[0] == s[0] && Unescaped(s[1..], t[1..])
  }

  lemma {:induction false} UnescapingDropsBackslashes(s: string, t: string)
    ensures Unescape(s) == t <==> Unescaped(s, t)
  {
    if s != [] {
      var skip := if |s| >= 2 && s[0] == '\\' && s[1] != '\n' then 2 else 1;
      UnescapingDropsBackslashes(s[skip..], if t == [] then [] else t[1..]);
      if t != [] { assert t == [t[0]] + t[1..]; }
    }
  }
}
