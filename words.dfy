/**
 * Word counting as both content.js and popup.js do it:
 * `s.split(/\s+/).filter(word => word.length > 0).length`.
 */
module Words {

  /** JavaScript's `\s` class; `String.prototype.trim` removes the same characters. */
  predicate IsWhitespace(c: char) {
    || c == ' ' || c == '\t' || c == '\n' || c == '\r'
    || c as int == 0x0B || c as int == 0x0C || c as int == 0xA0 || c as int == 0x1680
    || 0x2000 <= c as int <= 0x200A
    || c as int == 0x2028 || c as int == 0x2029 || c as int == 0x202F || c as int == 0x205F
    || c as int == 0x3000 || c as int == 0xFEFF
  }

  predicate NoWhitespace(p: string) {
    forall k :: 0 <= k < |p| ==> !IsWhitespace(p[k])
  }

  /** The whitespace characters of `s`, in order: where `Split` cuts. */
  function Separators(s: string): (seps: string)
    ensures forall k :: 0 <= k < |seps| ==> IsWhitespace(seps[k])
  {
    if s == [] then []
    else (if IsWhitespace(s[0]) then [s[0]] else []) + Separators(s[1..])
  }

  /** Pieces joined back together, with `seps[k]` between piece `k` and piece `k + 1`. */
  function Join(pieces: seq<string>, seps: string): string
    requires |pieces| == |seps| + 1
    decreases |seps|
  {
    if seps == [] then pieces[0]
    else pieces[0] + [seps[0]] + Join(pieces[1..], seps[1..])
  }

  /**
   * The pieces of `s` between whitespace characters. Splitting on every single
   * whitespace character instead of on maximal runs (`/\s+/`) only adds empty
   * pieces, and those are filtered out before counting.
   */
  function Split(s: string): (pieces: seq<string>)
    ensures |pieces| >= 1
    ensures forall k :: 0 <= k < |pieces| ==> NoWhitespace(pieces[k])
    ensures pieces[0] == [] <==> s == [] || IsWhitespace(s[0])
  {
    if s == [] then [[]]
    else
      var rest := Split(s[1..]);
      if IsWhitespace(s[0]) then [[]] + rest
      else [[s[0]] + rest[0]] + rest[1..]
  }

  /**
   * `Split` cuts at exactly the whitespace characters: there is one more
   * piece than separators, and joining the pieces back with the separators
   * gives the text again.
   */
  lemma {:induction false} SplitJoinsBack(s: string)
    ensures |Split(s)| == |Separators(s)| + 1
    ensures Join(Split(s), Separators(s)) == s
  {
    if s != [] {
      var t := s[1..];
      SplitJoinsBack(t);
      var rest := Split(t);
      assert s == [s[0]] + t;
      if IsWhitespace(s[0]) {
        assert Separators(s) == [s[0]] + Separators(t);
        assert Split(s)[1..] == rest;
      } else {
        assert Separators(s) == Separators(t);
        JoinFirst(s[0], rest, Separators(t));
      }
    }
  }

  /** Putting a character in front of the first piece puts it in front of the joined text. */
  lemma JoinFirst(c: char, pieces: seq<string>, seps: string)
    requires |pieces| == |seps| + 1
    ensures Join([[c] + pieces[0]] + pieces[1..], seps) == [c] + Join(pieces, seps)
  {
    var q := [[c] + pieces[0]] + pieces[1..];
    assert q[0] == [c] + pieces[0];
    if seps != [] {
      assert q[1..] == pieces[1..];
      var rest := Join(pieces[1..], seps[1..]);
      calc {
        Join(q, seps);
        q[0] + [seps[0]] + rest;
        [c] + (pieces[0] + [seps[0]] + rest);
        [c] + Join(pieces, seps);
      }
    }
  }

  /** `.filter(word => word.length > 0)` */
  function NonEmpty(pieces: seq<string>): (words: seq<string>)
    ensures |words| <= |pieces|
    ensures forall k :: 0 <= k < |words| ==> words[k] != []
  {
    if pieces == [] then []
    else (if pieces[0] == [] then [] else [pieces[0]]) + NonEmpty(pieces[1..])
  }

  /** The filter keeps every non-empty piece, as often as it occurs, and nothing else. */
  lemma {:induction false} NonEmptyKeepsWords(pieces: seq<string>)
    ensures multiset(NonEmpty(pieces)) == multiset(pieces)[[] := 0]
  {
    if pieces != [] {
      var p, rest := pieces[0], pieces[1..];
      NonEmptyKeepsWords(rest);
      assert pieces == [p] + rest;
      var kept := if p == [] then [] else [p];
      assert NonEmpty(pieces) == kept + NonEmpty(rest);
      assert multiset(kept) == multiset([p])[[] := 0];
    }
  }

  function Words(s: string): seq<string> {
    NonEmpty(Split(s))
  }

  function WordCount(s: string): nat {
    |Words(s)|
  }

  /** `!s || s.trim() === ''` */
  predicate IsBlank(s: string) {
    forall k :: 0 <= k < |s| ==> IsWhitespace(s[k])
  }

  /** Position `i` holds the first character of a maximal run of non-whitespace. */
  predicate StartsRun(s: string, i: int)
    requires 0 <= i < |s|
  {
    !IsWhitespace(s[i]) && (i == 0 || IsWhitespace(s[i - 1]))
  }

  /** Reference definition: the number of maximal runs of non-whitespace characters. */
  function RunCount(s: string): nat {
    if s == [] then 0
    else RunCount(s[..|s| - 1]) + (if StartsRun(s, |s| - 1) then 1 else 0)
  }

  /** Putting one character in front of a text adds a word exactly when it starts a new run. */
  lemma WordCountCons(c: char, t: string)
    ensures WordCount([c] + t) == WordCount(t) + (if !IsWhitespace(c) && (t == [] || IsWhitespace(t[0])) then 1 else 0)
  {
    var s := [c] + t;
    assert s[1..] == t;
    var rest := Split(t);
    assert rest == [rest[0]] + rest[1..];
    if IsWhitespace(c) {
      assert Split(s) == [[]] + rest;
      assert ([[]] + rest)[1..] == rest;
    } else {
      var first := [c] + rest[0];
      assert Split(s) == [first] + rest[1..];
      assert ([first] + rest[1..])[1..] == rest[1..];
      assert NonEmpty(Split(s)) == [first] + NonEmpty(rest[1..]);
      assert NonEmpty(rest) == (if rest[0] == [] then [] else [rest[0]]) + NonEmpty(rest[1..]);
    }
  }

  /** Appending one character adds a word exactly when it starts a new run. */
  lemma {:induction false} WordCountSnoc(s: string, c: char)
    ensures WordCount(s + [c]) == WordCount(s) + (if !IsWhitespace(c) && (s == [] || IsWhitespace(s[|s| - 1])) then 1 else 0)
  {
    if s == [] {
      assert s + [c] == [c] + [];
      WordCountCons(c, []);
    } else {
      var t := s[1..];
      assert s == [s[0]] + t;
      assert s + [c] == [s[0]] + (t + [c]);
      WordCountCons(s[0], t + [c]);
      WordCountCons(s[0], t);
      WordCountSnoc(t, c);
      assert t != [] ==> (t + [c])[0] == t[0] && t[|t| - 1] == s[|s| - 1];
    }
  }

  /** The split-and-filter count is the number of maximal non-whitespace runs. */
  lemma {:induction false} WordCountIsRunCount(s: string)
    ensures WordCount(s) == RunCount(s)
  {
    if s != [] {
      var p := s[..|s| - 1];
      WordCountIsRunCount(p);
      assert s == p + [s[|s| - 1]];
      WordCountSnoc(p, s[|s| - 1]);
    }
  }

  /** A prefix never holds more words than the whole text. */
  lemma {:induction false} WordCountPrefix(s: string, k: nat)
    requires k <= |s|
    ensures WordCount(s[..k]) <= WordCount(s)
    decreases |s| - k
  {
    if k < |s| {
      WordCountPrefix(s, k + 1);
      assert s[..k + 1] == s[..k] + [s[k]];
      WordCountSnoc(s[..k], s[k]);
    } else {
      assert s[..k] == s;
    }
  }

  /** Word counts of prefixes grow with the prefix. */
  lemma WordCountPrefixes(s: string, j: nat, k: nat)
    requires j <= k <= |s|
    ensures WordCount(s[..j]) <= WordCount(s[..k])
  {
    assert s[..k][..j] == s[..j];
    WordCountPrefix(s[..k], j);
  }

  /** A text is blank (empty or whitespace only) exactly when it has no words. */
  lemma {:induction false} BlankIffNoWords(s: string)
    ensures IsBlank(s) <==> WordCount(s) == 0
  {
    if s != [] {
      var t := s[1..];
      BlankIffNoWords(t);
      assert s == [s[0]] + t;
      WordCountCons(s[0], t);
      assert IsBlank(s) <==> IsWhitespace(s[0]) && IsBlank(t) by {
        if IsWhitespace(s[0]) && IsBlank(t) {
          forall k | 0 <= k < |s| ensures IsWhitespace(s[k]) {
            if k > 0 { assert s[k] == t[k - 1]; }
          }
        }
      }
    }
  }
}
