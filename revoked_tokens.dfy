/**
 * The revocation denylist (RevokedToken): a table of token strings. A row is
 * accepted only when its token is present and has the compact JWT shape
 * `header.payload.signature`, whose segments use the URL-safe alphabet and
 * whose signature segment may be empty.
 */
module RevokedTokens {
  import opened Support

  /** The character class `[a-zA-Z0-9\-_]` of JWT_REGEX. */
  predicate IsUrlSafe(c: char)
  {
    'a' <= c <= 'z' || 'A' <= c <= 'Z' || '0' <= c <= '9' || c == '-' || c == '_'
  }

  predicate AllUrlSafe(s: string)
  {
    forall i :: 0 <= i < |s| ==> IsUrlSafe(s[i])
  }

  /** The pieces of `s` between its dots, in order (always at least one). */
  function Split(s: string): (segments: seq<string>)
    ensures |segments| >= 1
  {
    if s == [] then [[]]
    else
      var rest := Split(s[1..]);
      if s[0] == '.' then [[]] + rest
      else [[s[0]] + rest[0]] + rest[1..]
  }

  /** The segments glued back together with dots. */
  function Join(segments: seq<string>): string
    requires |segments| >= 1
  {
    if |segments| == 1 then segments[0]
    else segments[0] + "." + Join(segments[1..])
  }

  /**
   * `JWT_REGEX =~ s`, i.e. `\A[a-zA-Z0-9\-_]+?\.[a-zA-Z0-9\-_]+?\.([a-zA-Z0-9\-_]+)?\z`:
   * exactly three dot-separated segments, the first two non-empty, all URL-safe.
   */
  predicate MatchesJwtRegex(s: string)
  {
    var segments := Split(s);
    |segments| == 3 && segments[0] != [] && segments[1] != []
    && AllUrlSafe(segments[0]) && AllUrlSafe(segments[1]) && AllUrlSafe(segments[2])
  }

  /** `validates_presence_of :token` together with `validates_format_of :token`. */
  predicate ValidToken(token: Option<string>)
  {
    token.Some? && !Blank(token.value) && MatchesJwtRegex(token.value)
  }

  /** Splitting undoes joining: nothing of the input is lost. */
  lemma {:induction false} JoinSplit(s: string)
    ensures Join(Split(s)) == s
  {
    if s != [] {
      var rest := Split(s[1..]);
      JoinSplit(s[1..]);
      if s[0] == '.' {
        assert ([[]] + rest)[1..] == rest;
        assert s == "." + s[1..];
      } else if |rest| == 1 {
        assert s == [s[0]] + s[1..];
      } else {
        var segments := [[s[0]] + rest[0]] + rest[1..];
        assert segments[1..] == rest[1..];
        assert s == [s[0]] + s[1..];
      }
    }
  }

  /** A dot-free prefix is glued onto the first segment of what follows it. */
  lemma {:induction false} SplitDotFreePrefix(a: string, t: string)
    requires '.' !in a
    ensures Split(a + t) == [a + Split(t)[0]] + Split(t)[1..]
  {
    if a == [] {
      var st := Split(t);
      assert a + t == t && a + st[0] == st[0];
      assert st == [st[0]] + st[1..];
    } else {
      assert (a + t)[1..] == a[1..] + t;
      assert (a + t)[0] == a[0];
      SplitDotFreePrefix(a[1..], t);
      assert [a[0]] + (a[1..] + Split(t)[0]) == a + Split(t)[0];
    }
  }

  lemma UrlSafeHasNoDot(s: string)
    requires AllUrlSafe(s)
    ensures '.' !in s
  {
  }

  /** Three URL-safe segments joined by dots split back into exactly those segments. */
  lemma SplitThree(a: string, b: string, c: string)
    requires AllUrlSafe(a) && AllUrlSafe(b) && AllUrlSafe(c)
    ensures Split(a + "." + b + "." + c) == [a, b, c]
  {
    UrlSafeHasNoDot(a);
    UrlSafeHasNoDot(b);
    UrlSafeHasNoDot(c);
    SplitDotFreePrefix(c, []);
    assert c + [] == c;
    var tc := "." + c;
    assert Split(tc) == [[], c];
    SplitDotFreePrefix(b, tc);
    assert b + [] == b;
    assert Split(b + tc) == [b, c];
    var tb := "." + (b + tc);
    assert Split(tb) == [[], b, c];
    SplitDotFreePrefix(a, tb);
    assert a + [] == a;
    assert a + "." + b + "." + c == a + tb;
  }

  /** Completeness: every string of the shape `seg1.seg2.seg3` matches. */
  lemma RegexAccepts(a: string, b: string, c: string)
    requires a != [] && b != []
    requires AllUrlSafe(a) && AllUrlSafe(b) && AllUrlSafe(c)
    ensures MatchesJwtRegex(a + "." + b + "." + c)
  {
    SplitThree(a, b, c);
  }

  /** Soundness: a matching string is its three segments joined by dots. */
  lemma RegexSound(s: string)
    requires MatchesJwtRegex(s)
    ensures var segments := Split(s);
      s == segments[0] + "." + segments[1] + "." + segments[2]
  {
    var segments := Split(s);
    JoinSplit(s);
    assert segments[1..][1..] == [segments[2]];
    assert Join(segments[1..]) == segments[1] + "." + segments[2];
    assert Join(segments) == segments[0] + "." + (segments[1] + "." + segments[2]);
  }

  /** Every accepted token holds exactly two dots. */
  lemma AcceptedHasTwoDots(s: string)
    requires MatchesJwtRegex(s)
    ensures multiset(s)['.'] == 2
  {
    var segments := Split(s);
    RegexSound(s);
    UrlSafeHasNoDot(segments[0]);
    UrlSafeHasNoDot(segments[1]);
    UrlSafeHasNoDot(segments[2]);
    assert multiset(s) == multiset(segments[0]) + multiset(".") + multiset(segments[1])
      + multiset(".") + multiset(segments[2]);
  }

  /** Every character of an accepted token is a dot or URL-safe. */
  lemma AcceptedAlphabet(s: string, k: int)
    requires MatchesJwtRegex(s) && 0 <= k < |s|
    ensures s[k] == '.' || IsUrlSafe(s[k])
  {
    var segments := Split(s);
    RegexSound(s);
    var a, b, c := segments[0], segments[1], segments[2];
    if k < |a| {
      assert s[k] == a[k];
    } else if k == |a| {
    } else if k < |a| + 1 + |b| {
      assert s[k] == b[k - |a| - 1];
    } else if k == |a| + 1 + |b| {
    } else {
      assert s[k] == c[k - |a| - 2 - |b|];
    }
  }

  /** One character outside the alphabet anywhere (`=`, `+`, `/`, a space, a newline) rejects. */
  lemma ForeignCharacterRejected(s: string, k: int)
    requires 0 <= k < |s| && s[k] != '.' && !IsUrlSafe(s[k])
    ensures !MatchesJwtRegex(s)
  {
    if MatchesJwtRegex(s) {
      AcceptedAlphabet(s, k);
    }
  }

  /** The format check already rules out blank strings; presence only adds the nil case. */
  lemma FormatImpliesPresence(s: string)
    requires MatchesJwtRegex(s)
    ensures ValidToken(Some(s))
  {
    var segments := Split(s);
    RegexSound(s);
    assert s[0] == segments[0][0];
    assert !IsSpace(s[0]);
  }

  lemma AbsentOrEmptyRejected()
    ensures !ValidToken(None) && !ValidToken(Some(""))
  {
    assert Split("") == [[]];
  }

  /** An empty signature segment is accepted, two segments are not. */
  lemma EmptySignatureAccepted()
    ensures ValidToken(Some("a.b.")) && !ValidToken(Some("a.b"))
  {
    RegexAccepts("a", "b", "");
    assert "a" + "." + "b" + "." + "" == "a.b.";
    FormatImpliesPresence("a.b.");
  }

  /** The denylist table; `tokens` is the set of revoked token strings. */
  class Registry {
    var tokens: set<string>

    /** Every stored row passed the model's validations. */
    ghost predicate Valid()
      reads this
    {
      forall t :: t in tokens ==> ValidToken(Some(t))
    }

    constructor ()
      ensures Valid() && tokens == {}
    {
      tokens := {};
    }

    /**
     * `RevokedToken.create!(token: token)`: an invalid token raises and leaves
     * the table as it was; a valid one is stored (again, if already there).
     */
    method Create(token: Option<string>) returns (r: Result<(), Failure>)
      requires Valid()
      modifies this
      ensures Valid()
      ensures r == if ValidToken(token) then Ok(()) else Err(RecordInvalid)
      ensures tokens == if ValidToken(token) then old(tokens) + {token.value} else old(tokens)
      ensures token.Some? && token.value in old(tokens) ==> r == Ok(()) && tokens == old(tokens)
    {
      if token.Some? && !Blank(token.value) && MatchesJwtRegex(token.value) {
        tokens := tokens + {token.value};
        r := Ok(());
      } else {
        r := Err(RecordInvalid);
      }
    }

    /** `RevokedToken.find_by_token(token)` read as a boolean; no row has a nil token. */
    function FindByToken(token: Option<string>): (found: bool)
      reads this
      ensures found ==> token.Some? && token.value in tokens
      ensures token.Some? && token.value in tokens ==> found
    {
      match token
      case None => false
      case Some(t) => t in tokens
    }
  }
}
