/** Hashtag extraction from a post caption: `re.findall(r"#(\w+)", caption)`
    followed by `tag.lower()` on every match, with `\w` and `lower()` taken over
    ASCII (letters, digits, underscore). */
module Hashtags {

  /** `\w`: an ASCII letter, digit or underscore. */
  predicate IsWordChar(c: char) {
    'a' <= c <= 'z' || 'A' <= c <= 'Z' || '0' <= c <= '9' || c == '_'
  }

  predicate IsUpper(c: char) {
    'A' <= c <= 'Z'
  }

  function LowerChar(c: char): char {
    if IsUpper(c) then (c as int + 32) as char else c
  }

  /** `s.lower()` */
  function Lower(s: string): string {
    seq(|s|, i requires 0 <= i < |s| => LowerChar(s[i]))
  }

  function LowerAll(ts: seq<string>): seq<string> {
    seq(|ts|, k requires 0 <= k < |ts| => Lower(ts[k]))
  }

  /** A run of one or more word characters. */
  predicate IsWord(w: string) {
    |w| > 0 && forall i :: 0 <= i < |w| ==> IsWordChar(w[i])
  }

  /** The form of every key of the hashtag index: a word with no upper-case letter
      and no leading `#`. */
  predicate IsTag(t: string) {
    IsWord(t) && forall i :: 0 <= i < |t| ==> !IsUpper(t[i])
  }

  /** Length of the longest prefix of `s` made of word characters (what the greedy
      `\w+` consumes). */
  function WordRun(s: string): (n: nat)
    ensures n <= |s|
    ensures forall i :: 0 <= i < n ==> IsWordChar(s[i])
    ensures n < |s| ==> !IsWordChar(s[n])
  {
    if s == [] || !IsWordChar(s[0]) then 0 else 1 + WordRun(s[1..])
  }

  /** `re.findall(r"#(\w+)", s)`: scanning left to right, a `#` followed by a word
      character starts a match whose group is the whole word run after it; the scan
      resumes after the run, otherwise one character further on. */
  function FindAll(s: string): (r: seq<string>)
    ensures forall k :: 0 <= k < |r| ==> IsWord(r[k])
    decreases |s|
  {
    if |s| < 2 then []
    else if s[0] == '#' && IsWordChar(s[1]) then
      var n := WordRun(s[1..]);
      [s[1..1 + n]] + FindAll(s[1 + n..])
    else FindAll(s[1..])
  }

  /** `[tag.lower() for tag in _HASHTAG_RE.findall(caption)]` */
  function ExtractHashtags(caption: string): (tags: seq<string>)
    ensures |tags| == |FindAll(caption)|
    ensures forall k :: 0 <= k < |tags| ==> IsTag(tags[k])
  {
    var raw := FindAll(caption);
    var tags := LowerAll(raw);
    assert forall k :: 0 <= k < |tags| ==> IsWord(raw[k]) && tags[k] == Lower(raw[k]);
    tags
  }

  /** A caption without `#` has no hashtags. */
  lemma {:induction false} NoHashNoTags(caption: string)
    requires '#' !in caption
    ensures ExtractHashtags(caption) == []
  {
    if |caption| >= 2 {
      assert caption[0] != '#';
      assert '#' !in caption[1..];
      NoHashNoTags(caption[1..]);
    }
  }

  lemma {:induction false} WordRunOfWordThenBreak(w: string, rest: string)
    requires IsWord(w) || w == []
    requires rest == [] || !IsWordChar(rest[0])
    ensures WordRun(w + rest) == |w|
  {
    if w != [] {
      assert (w + rest)[1..] == w[1..] + rest;
      WordRunOfWordThenBreak(w[1..], rest);
    } else {
      assert w + rest == rest;
    }
  }

  /** A `#`, a word, then a non-word character (or the end): the word is the first
      match, lowercased, and extraction continues after it. */
  lemma MatchThenRest(w: string, rest: string)
    requires IsWord(w)
    requires rest == [] || !IsWordChar(rest[0])
    ensures ExtractHashtags("#" + w + rest) == [Lower(w)] + ExtractHashtags(rest)
  {
    var s := "#" + w + rest;
    assert s[1..] == w + rest;
    WordRunOfWordThenBreak(w, rest);
    assert s[1..1 + |w|] == w;
    assert s[1 + |w|..] == rest;
    assert FindAll(s) == [w] + FindAll(rest);
    assert LowerAll([w] + FindAll(rest)) == [Lower(w)] + LowerAll(FindAll(rest));
  }

  /** A character that does not open a match is skipped. */
  lemma SkipNonMatch(c: char, rest: string)
    requires c != '#' || rest == [] || !IsWordChar(rest[0])
    ensures ExtractHashtags([c] + rest) == ExtractHashtags(rest)
  {
    assert ([c] + rest)[1..] == rest;
  }

  lemma LowerCharFacts(c: char)
    ensures IsWordChar(LowerChar(c)) == IsWordChar(c)
    ensures (LowerChar(c) == '#') == (c == '#')
    ensures LowerChar(LowerChar(c)) == LowerChar(c)
    ensures !IsUpper(LowerChar(c))
  {
  }

  lemma {:induction false} WordRunLower(s: string)
    ensures WordRun(Lower(s)) == WordRun(s)
  {
    if s != [] {
      LowerCharFacts(s[0]);
      assert Lower(s)[1..] == Lower(s[1..]);
      WordRunLower(s[1..]);
    }
  }

  lemma LowerIdempotent(s: string)
    ensures Lower(Lower(s)) == Lower(s)
  {
    forall i | 0 <= i < |s| ensures Lower(Lower(s))[i] == Lower(s)[i] {
      LowerCharFacts(s[i]);
    }
  }

  lemma {:induction false} FindAllLower(s: string)
    ensures FindAll(Lower(s)) == LowerAll(FindAll(s))
    decreases |s|
  {
    var ls := Lower(s);
    if |s| >= 2 {
      LowerCharFacts(s[0]);
      LowerCharFacts(s[1]);
      assert ls[0] == LowerChar(s[0]) && ls[1] == LowerChar(s[1]);
      if s[0] == '#' && IsWordChar(s[1]) {
        var n := WordRun(s[1..]);
        assert ls[1..] == Lower(s[1..]);
        WordRunLower(s[1..]);
        assert ls[1..1 + n] == Lower(s[1..1 + n]);
        assert ls[1 + n..] == Lower(s[1 + n..]);
        FindAllLower(s[1 + n..]);
        assert FindAll(ls) == [Lower(s[1..1 + n])] + LowerAll(FindAll(s[1 + n..]));
      } else {
        assert ls[1..] == Lower(s[1..]);
        FindAllLower(s[1..]);
      }
    }
  }

  /** Extraction ignores the case of the caption: `#Python`, `#PYTHON` and `#python`
      all yield the tag `python`. */
  lemma ExtractIgnoresCase(caption: string)
    ensures ExtractHashtags(Lower(caption)) == ExtractHashtags(caption)
  {
    var raw := FindAll(caption);
    FindAllLower(caption);
    forall k | 0 <= k < |raw| ensures Lower(Lower(raw[k])) == Lower(raw[k]) {
      LowerIdempotent(raw[k]);
    }
  }

  lemma LowerOfLowercase(s: string)
    requires forall i :: 0 <= i < |s| ==> !IsUpper(s[i])
    ensures Lower(s) == s
  {
  }

  /** Captions from the repository's own post tests. */
  lemma HelloWorldExample()
    ensures ExtractHashtags("Hello #world") == ["world"]
  {
    var w := "world";
    assert IsWord(w);
    LowerOfLowercase(w);
    SkipCharsThenMatch("Hello ", w, "");
    assert "Hello " + "#" + w + "" == "Hello #world";
    assert FindAll("") == [];
  }

  lemma NoTagsExample()
    ensures ExtractHashtags("Just a regular caption with no tags") == []
  {
    NoHashNoTags("Just a regular caption with no tags");
  }

  lemma {:induction false} SkipCharsThenMatch(prefix: string, w: string, rest: string)
    requires '#' !in prefix
    requires IsWord(w)
    requires rest == [] || !IsWordChar(rest[0])
    ensures ExtractHashtags(prefix + "#" + w + rest) == [Lower(w)] + ExtractHashtags(rest)
  {
    if prefix == [] {
      assert prefix + "#" + w + rest == "#" + w + rest;
      MatchThenRest(w, rest);
    } else {
      var tail := prefix[1..] + "#" + w + rest;
      assert prefix + "#" + w + rest == [prefix[0]] + tail;
      SkipNonMatch(prefix[0], tail);
      assert prefix[0] in prefix;
      SkipCharsThenMatch(prefix[1..], w, rest);
    }
  }
}
