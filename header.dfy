/**
 Reading the bearer token out of the `Authorization` header: the header is cut
 at every space, the way JavaScript's `String.prototype.split(" ")` does it
 (empty words are kept), and the token is the second word.
 */
module Header {
  import opened Wrappers

  /** The words of `s` between occurrences of `sep`; `""` has the one word `""`. */
  function Split(s: string, sep: char): (words: seq<string>)
    ensures |words| >= 1
    ensures forall i :: 0 <= i < |words| ==> sep !in words[i]
  {
    if s == [] then [""]
    else
      var rest := Split(s[1..], sep);
      if s[0] == sep then [""] + rest
      else [[s[0]] + rest[0]] + rest[1..]
  }

  /** The words of `words` with `sep` between each two of them. */
  function Join(words: seq<string>, sep: char): string
  {
    if words == [] then ""
    else if |words| == 1 then words[0]
    else words[0] + [sep] + Join(words[1..], sep)
  }

  /** Joining the words of a split gives back the string. */
  lemma {:induction false} JoinSplit(s: string, sep: char)
    ensures Join(Split(s, sep), sep) == s
  {
    if s != [] {
      var rest := Split(s[1..], sep);
      JoinSplit(s[1..], sep);
      if s[0] != sep && |rest| > 1 {
        assert Join(rest, sep) == rest[0] + [sep] + Join(rest[1..], sep);
        assert Join(Split(s, sep), sep) == [s[0]] + rest[0] + [sep] + Join(rest[1..], sep);
      }
    }
  }

  /** A string without the separator is a single word. */
  lemma {:induction false} SplitWord(w: string, sep: char)
    requires sep !in w
    ensures Split(w, sep) == [w]
  {
    if w != [] {
      assert w[0] in w;
      SplitWord(w[1..], sep);
      assert [w[0]] + w[1..] == w;
    }
  }

  /** A leading word followed by the separator is split off as the first word. */
  lemma {:induction false} SplitFirstWord(w: string, sep: char, tail: string)
    requires sep !in w
    ensures Split(w + [sep] + tail, sep) == [w] + Split(tail, sep)
  {
    var s := w + [sep] + tail;
    if w == [] {
      assert s == [sep] + tail;
      assert s[1..] == tail;
    } else {
      assert s[0] == w[0];
      assert s[1..] == w[1..] + [sep] + tail;
      assert w[0] in w;
      SplitFirstWord(w[1..], sep, tail);
      assert [w[0]] + w[1..] == w;
    }
  }

  /** Splitting a join of separator-free words gives back the words. */
  lemma {:induction false} SplitJoin(words: seq<string>, sep: char)
    requires |words| >= 1
    requires forall i :: 0 <= i < |words| ==> sep !in words[i]
    ensures Split(Join(words, sep), sep) == words
  {
    if |words| == 1 {
      SplitWord(words[0], sep);
    } else {
      SplitJoin(words[1..], sep);
      SplitFirstWord(words[0], sep, Join(words[1..], sep));
    }
  }

  /**
   The bearer token of an `Authorization` header: its second space-separated
   word. There is none when the header is absent, has no second word, or the
   second word is empty (a falsy string).
   */
  function BearerToken(authorization: Option<string>): (token: Option<string>)
    ensures authorization.None? ==> token.None?
    ensures token.Some? ==> token.value != "" && ' ' !in token.value
  {
    match authorization
    case None => None
    case Some(header) =>
      var words := Split(header, ' ');
      if |words| < 2 || words[1] == "" then None else Some(words[1])
  }

  /** A header made of a scheme, a token and any further words yields that token. */
  lemma BearerTokenOfHeader(scheme: string, token: string, more: seq<string>)
    requires token != ""
    requires ' ' !in scheme && ' ' !in token
    requires forall i :: 0 <= i < |more| ==> ' ' !in more[i]
    ensures BearerToken(Some(Join([scheme, token] + more, ' '))) == Some(token)
  {
    var words := [scheme, token] + more;
    forall i | 0 <= i < |words| ensures ' ' !in words[i] {
      if i >= 2 { assert words[i] == more[i - 2]; }
    }
    SplitJoin(words, ' ');
  }

  /** Conversely, a token is always the second word of the header it came from. */
  lemma BearerTokenIsSecondWord(header: string, token: string)
    requires BearerToken(Some(header)) == Some(token)
    ensures exists scheme, more :: ' ' !in scheme
                                   && (forall i :: 0 <= i < |more| ==> ' ' !in more[i])
                                   && header == Join([scheme, token] + more, ' ')
  {
    var words := Split(header, ' ');
    JoinSplit(header, ' ');
    assert words == [words[0], token] + words[2..];
    var more := words[2..];
    forall i | 0 <= i < |more| ensures ' ' !in more[i] {
      assert more[i] == words[i + 2];
    }
  }

  /** A header without a space (a bare token, or the scheme alone) carries no token. */
  lemma NoSpaceNoToken(header: string)
    requires ' ' !in header
    ensures BearerToken(Some(header)) == None
  {
    SplitWord(header, ' ');
  }
}
