/** Removing markup from product names: the global replace of the pattern
    `<[^>]*>` by the empty string. Scanning left to right, a `<` that has a
    `>` somewhere after it starts a match that ends at the first such `>`, and
    the whole match is dropped; a `<` with no `>` after it, and every other
    character, is kept and the scan moves on by one. */
module Markup {

  /** The position of the first `c` in `s`. */
  function IndexOf(s: string, c: char): (k: nat)
    requires c in s
    ensures k < |s| && s[k] == c && c !in s[..k]
  {
    if s[0] == c then 0
    else
      assert s == [s[0]] + s[1..];
      var k := IndexOf(s[1..], c) + 1;
      assert s[..k] == [s[0]] + s[1..][..k - 1];
      k
  }

  /** The name with every `<...>` tag taken out. */
  function StripTags(s: string): (r: string)
    ensures |r| <= |s|
    ensures multiset(r) <= multiset(s)
    decreases |s|
  {
    if s == [] then []
    else if s[0] == '<' && '>' in s[1..] then
      var rest := s[1..][IndexOf(s[1..], '>') + 1..];
      assert s == s[..|s| - |rest|] + rest;
      StripTags(rest)
    else
      assert s == [s[0]] + s[1..];
      [s[0]] + StripTags(s[1..])
  }

  /** No `<` is followed, anywhere later, by a `>`: there is nothing left that
      the pattern could match. */
  predicate TagFree(s: string)
  {
    forall i, j :: 0 <= i < j < |s| && s[i] == '<' ==> s[j] != '>'
  }

  /** The stripped name holds no tag. */
  lemma {:induction false} StripTagsIsTagFree(s: string)
    ensures TagFree(StripTags(s))
    decreases |s|
  {
    if s == [] {
    } else if s[0] == '<' && '>' in s[1..] {
      StripTagsIsTagFree(s[1..][IndexOf(s[1..], '>') + 1..]);
    } else {
      var tail := StripTags(s[1..]);
      StripTagsIsTagFree(s[1..]);
      var r := [s[0]] + tail;
      forall i, j | 0 <= i < j < |r| && r[i] == '<' ensures r[j] != '>' {
        if i == 0 {
          assert r[j] == tail[j - 1];
          assert r[j] in multiset(tail);
          assert r[j] in s[1..];
        } else {
          assert r[i] == tail[i - 1] && r[j] == tail[j - 1];
        }
      }
    }
  }

  lemma StripTagsAlwaysTagFree()
    ensures forall s :: TagFree(StripTags(s))
  {
    forall s ensures TagFree(StripTags(s)) {
      StripTagsIsTagFree(s);
    }
  }

  /** A name that holds no tag, in particular one without any `<`, passes
      through unchanged. */
  lemma {:induction false} StripTagsKeepsTagFree(s: string)
    requires TagFree(s)
    ensures StripTags(s) == s
    decreases |s|
  {
    if s != [] {
      assert s[0] == '<' ==> '>' !in s[1..];
      assert TagFree(s[1..]) by {
        forall i, j | 0 <= i < j < |s| - 1 && s[1..][i] == '<' ensures s[1..][j] != '>' {
          assert s[1..][i] == s[i + 1] && s[1..][j] == s[j + 1];
        }
      }
      StripTagsKeepsTagFree(s[1..]);
    }
  }

  /** Stripping twice is the same as stripping once. */
  lemma StripTagsIdempotent(s: string)
    ensures StripTags(StripTags(s)) == StripTags(s)
  {
    StripTagsIsTagFree(s);
    StripTagsKeepsTagFree(StripTags(s));
  }

  /** A character other than `<` is kept and the scan moves on. */
  lemma StripTagsText(c: char, t: string)
    requires c != '<'
    ensures StripTags([c] + t) == [c] + StripTags(t)
  {
    assert ([c] + t)[1..] == t;
  }

  /** A complete tag `<body>` is dropped and the scan resumes after its `>`. */
  lemma StripTagsTag(body: string, t: string)
    requires '>' !in body
    ensures StripTags(['<'] + body + ['>'] + t) == StripTags(t)
  {
    var s := ['<'] + body + ['>'] + t;
    var after := s[1..];
    assert after == body + ['>'] + t;
    assert after[|body|] == '>';
    var k := IndexOf(after, '>');
    assert k == |body|;
    assert after[k + 1..] == t;
  }
}
