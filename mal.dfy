/** The MyAnimeList list client (internal/api/mal/anime.go): the status decision when progress
    is updated, the form body of a list-status update, and the request each call issues.

    The HTTP calls `doQuery` and `doMutation` are abstract; the model's `Wrapper` records the
    requests they are asked to send, in order, and takes the server's answer as a parameter.
    The body of an update is built the way `url.Values.Encode` builds it: keys in increasing
    byte order, each `key=value` with both sides query-escaped, joined by `&`. Go strings are
    byte strings; the model's strings carry one byte per character where escaping is involved. */
module Mal {
  import opened Host

  // The list and airing statuses are declared in a file that is not part of this model; these
  // are the values of MyAnimeList's API.
  const MediaListStatusWatching: string := "watching"
  const MediaListStatusCompleted: string := "completed"
  const MediaStatusFinishedAiring: string := "finished_airing"

  const BaseAnimeFields: string :=
    "id,title,main_picture,alternative_titles,start_date,end_date,start_season,nsfw,synopsis,num_episodes,mean,rank,popularity,media_type,status"

  /** The fields of an anime's details that the client reads. */
  datatype BasicAnime = BasicAnime(id: int, title: string, numEpisodes: int, status: string)

  datatype AnimeListProgressParams = AnimeListProgressParams(numEpisodesWatched: Option<int>)

  datatype AnimeListStatusParams = AnimeListStatusParams(
    status: Option<string>,
    isRewatching: Option<bool>,
    numEpisodesWatched: Option<int>,
    score: Option<int>)

  datatype Request = Request(verb: string, url: string, body: string)

  // ---------------------------------------------------------------------------------------
  // %d and %t
  // ---------------------------------------------------------------------------------------

  predicate IsDigit(c: char) {
    '0' <= c <= '9'
  }

  predicate IsDigits(s: string) {
    |s| > 0 && forall i :: 0 <= i < |s| ==> IsDigit(s[i])
  }

  function DigitChar(d: nat): (c: char)
    requires d < 10
    ensures IsDigit(c)
  {
    ('0' as int + d) as char
  }

  function DigitValue(c: char): (d: nat)
    requires IsDigit(c)
    ensures d < 10
  {
    c as int - '0' as int
  }

  /** Decimal digits of `n`, most significant first, no leading zeros. */
  function FormatNat(n: nat): (s: string)
    decreases n
  {
    if n < 10 then [DigitChar(n)] else FormatNat(n / 10) + [DigitChar(n % 10)]
  }

  /** The first digit of a positive number is not zero. */
  lemma {:induction false} FormatNatNoLeadingZero(n: nat)
    ensures |FormatNat(n)| > 0
    ensures n > 0 ==> FormatNat(n)[0] != '0'
    decreases n
  {
    if n >= 10 {
      FormatNatNoLeadingZero(n / 10);
    }
  }

  /** `fmt.Sprintf("%d", n)`: decimal digits, after a minus sign exactly when `n` is negative,
      in canonical form: "0" for zero and no leading zero otherwise. */
  function FormatInt(n: int): (s: string)
    ensures n >= 0 ==> IsDigits(s) && ParseNat(s) == n
    ensures n < 0 ==> |s| > 1 && s[0] == '-' && IsDigits(s[1..]) && ParseNat(s[1..]) == -n
    ensures n == 0 ==> s == "0"
    ensures n > 0 ==> s[0] != '0'
    ensures n < 0 ==> s[1] != '0'
  {
    FormatNatDigits(if n < 0 then -n else n);
    FormatNatNoLeadingZero(if n < 0 then -n else n);
    if n < 0 then "-" + FormatNat(-n) else FormatNat(n)
  }

  /** `fmt.Sprintf("%t", b)`: one of two distinct words, "true" exactly for true. */
  function FormatBool(b: bool): (s: string)
    ensures s == "true" || s == "false"
    ensures s == "true" <==> b
  {
    if b then "true" else "false"
  }

  function ParseNat(s: string): nat
    requires IsDigits(s)
    decreases |s|
  {
    if |s| == 1 then DigitValue(s[0]) else ParseNat(s[..|s| - 1]) * 10 + DigitValue(s[|s| - 1])
  }

  function ParseInt(s: string): Option<int> {
    if |s| > 0 && s[0] == '-' && IsDigits(s[1..]) then (var magnitude: int := ParseNat(s[1..]); Some(-magnitude))
    else if IsDigits(s) then Some(ParseNat(s))
    else None
  }

  lemma {:induction false} FormatNatDigits(n: nat)
    ensures IsDigits(FormatNat(n)) && ParseNat(FormatNat(n)) == n
    decreases n
  {
    if n >= 10 {
      FormatNatDigits(n / 10);
      var s := FormatNat(n);
      assert s[..|s| - 1] == FormatNat(n / 10);
    }
  }

  lemma ParseNegative(digits: string)
    requires IsDigits(digits)
    ensures ParseInt("-" + digits) == Some(0 - ParseNat(digits) as int)
  {
    var s := "-" + digits;
    assert s[1..] == digits;
  }

  lemma ParseNonNegative(digits: string)
    requires IsDigits(digits)
    ensures ParseInt(digits) == Some(ParseNat(digits))
  {
    assert digits[0] != '-';
  }

  /** `%d` loses nothing: the number reads back from its decimal form. */
  lemma FormatIntRoundTrip(n: int)
    ensures ParseInt(FormatInt(n)) == Some(n)
  {
    if n < 0 {
      FormatNatDigits(-n);
      ParseNegative(FormatNat(-n));
    } else {
      FormatNatDigits(n);
      ParseNonNegative(FormatNat(n));
    }
  }

  lemma FormatIntInjective(a: int, b: int)
    ensures FormatInt(a) == FormatInt(b) ==> a == b
  {
    FormatIntRoundTrip(a);
    FormatIntRoundTrip(b);
  }

  // ---------------------------------------------------------------------------------------
  // Query escaping
  // ---------------------------------------------------------------------------------------

  /** The unreserved characters of section 2.3 of RFC 3986. */
  predicate Unreserved(c: char) {
    ('A' <= c <= 'Z') || ('a' <= c <= 'z') || IsDigit(c) || c == '-' || c == '.' || c == '_' || c == '~'
  }

  predicate AllUnreserved(s: string) {
    forall i :: 0 <= i < |s| ==> Unreserved(s[i])
  }

  predicate IsByteString(s: string) {
    forall i :: 0 <= i < |s| ==> s[i] as int < 256
  }

  function HexDigit(d: nat): char
    requires d < 16
  {
    "0123456789ABCDEF"[d]
  }

  /** `url.QueryEscape` of one byte: unreserved bytes stay, a space becomes `+`, every other
      byte becomes `%` and two upper-case hex digits. */
  function EscapeByte(c: char): (r: string)
    requires c as int < 256
    ensures Unreserved(c) ==> r == [c]
    ensures !Unreserved(c) ==> r != [c]
  {
    if Unreserved(c) then [c]
    else if c == ' ' then "+"
    else ['%', HexDigit(c as int / 16), HexDigit(c as int % 16)]
  }

  /** `url.QueryEscape`: never shorter than its input, and unreserved text goes out as it is. */
  function Escape(s: string): (r: string)
    requires IsByteString(s)
    ensures |r| >= |s|
    ensures AllUnreserved(s) ==> r == s
    decreases |s|
  {
    if s == [] then [] else EscapeByte(s[0]) + Escape(s[1..])
  }

  /** Escaping leaves a string as it is exactly when every character is unreserved. */
  lemma {:induction false} EscapeIsIdentityExactlyOnUnreserved(s: string)
    requires IsByteString(s)
    ensures Escape(s) == s <==> AllUnreserved(s)
    decreases |s|
  {
    if s != [] {
      EscapeIsIdentityExactlyOnUnreserved(s[1..]);
      var head := EscapeByte(s[0]);
      assert Escape(s) == head + Escape(s[1..]);
      if Unreserved(s[0]) {
        assert AllUnreserved(s) <==> AllUnreserved(s[1..]) by {
          if AllUnreserved(s[1..]) {
            forall i | 0 <= i < |s| ensures Unreserved(s[i]) {
              if i > 0 { assert s[i] == s[1..][i - 1]; }
            }
          }
        }
        if Escape(s) == s {
          assert Escape(s[1..]) == Escape(s)[1..] == s[1..];
        }
      } else {
        assert !AllUnreserved(s);
        if s[0] == ' ' {
          assert Escape(s)[0] == '+';
        } else {
          assert |Escape(s)| == 3 + |Escape(s[1..])|;
        }
      }
    }
  }

  lemma {:induction false} FormatNatUnreserved(n: nat)
    ensures AllUnreserved(FormatNat(n)) && IsByteString(FormatNat(n))
    decreases n
  {
    if n >= 10 {
      FormatNatUnreserved(n / 10);
    }
  }

  lemma FormattedValuesUnreserved(n: int, b: bool)
    ensures AllUnreserved(FormatInt(n)) && IsByteString(FormatInt(n))
    ensures AllUnreserved(FormatBool(b)) && IsByteString(FormatBool(b))
  {
    FormatNatUnreserved(if n < 0 then -n else n);
  }

  /** What `%d` and `%t` print needs no escaping. */
  lemma FormattedValuesNeedNoEscaping(n: int, b: bool)
    ensures IsByteString(FormatInt(n)) && Escape(FormatInt(n)) == FormatInt(n)
    ensures IsByteString(FormatBool(b)) && Escape(FormatBool(b)) == FormatBool(b)
  {
    FormattedValuesUnreserved(n, b);
  }

  // ---------------------------------------------------------------------------------------
  // Keys in increasing order
  // ---------------------------------------------------------------------------------------

  /** `a < b` on Go strings: byte-wise lexicographic order. */
  predicate Below(a: string, b: string)
    decreases |a|
  {
    |b| > 0 && (|a| == 0 || a[0] < b[0] || (a[0] == b[0] && Below(a[1..], b[1..])))
  }

  lemma {:induction false} BelowIrreflexive(a: string)
    ensures !Below(a, a)
    decreases |a|
  {
    if |a| > 0 {
      BelowIrreflexive(a[1..]);
    }
  }

  lemma {:induction false} BelowTransitive(a: string, b: string, c: string)
    requires Below(a, b) && Below(b, c)
    ensures Below(a, c)
    decreases |a|
  {
    if |a| > 0 && a[0] == b[0] && b[0] == c[0] {
      BelowTransitive(a[1..], b[1..], c[1..]);
    }
  }

  lemma {:induction false} BelowTotal(a: string, b: string)
    ensures a == b || Below(a, b) || Below(b, a)
    decreases |a|
  {
    if |a| > 0 && |b| > 0 && a[0] == b[0] {
      BelowTotal(a[1..], b[1..]);
      if a[1..] == b[1..] {
        assert a == [a[0]] + a[1..] && b == [b[0]] + b[1..];
      }
    }
  }

  lemma BelowAsymmetric(a: string, b: string)
    ensures !(Below(a, b) && Below(b, a))
  {
    if Below(a, b) && Below(b, a) {
      BelowTransitive(a, b, a);
      BelowIrreflexive(a);
    }
  }

  /** `k` is the least key of `s`. */
  predicate IsLeast(k: string, s: set<string>) {
    k in s && forall j :: j in s && j != k ==> Below(k, j)
  }

  lemma {:induction false} LeastExists(s: set<string>)
    requires s != {}
    ensures exists k :: IsLeast(k, s)
    decreases s
  {
    var x :| x in s;
    if s != {x} {
      LeastExists(s - {x});
      var k :| IsLeast(k, s - {x});
      BelowTotal(k, x);
      if Below(x, k) {
        forall j | j in s && j != x ensures Below(x, j) {
          if j != k { BelowTransitive(x, k, j); }
        }
        assert IsLeast(x, s);
      } else {
        assert IsLeast(k, s);
      }
    } else {
      assert IsLeast(x, s);
    }
  }

  lemma LeastUnique(s: set<string>)
    ensures forall a, b :: IsLeast(a, s) && IsLeast(b, s) ==> a == b
  {
    forall a, b | IsLeast(a, s) && IsLeast(b, s) ensures a == b {
      if a != b { BelowAsymmetric(a, b); }
    }
  }

  /** The keys of `s` in increasing order, as `url.Values.Encode` sorts them. */
  function SortedKeys(s: set<string>): seq<string>
    decreases s
  {
    if s == {} then []
    else
      LeastExists(s);
      LeastUnique(s);
      var k :| IsLeast(k, s);
      [k] + SortedKeys(s - {k})
  }

  predicate StrictlyIncreasing(xs: seq<string>) {
    forall i, j :: 0 <= i < j < |xs| ==> Below(xs[i], xs[j])
  }

  lemma {:induction false} SortedKeysSpec(s: set<string>)
    ensures StrictlyIncreasing(SortedKeys(s))
    ensures forall k :: k in SortedKeys(s) <==> k in s
    ensures |SortedKeys(s)| == |s|
    decreases s
  {
    if s != {} {
      LeastExists(s);
      LeastUnique(s);
      var k :| IsLeast(k, s);
      assert SortedKeys(s) == [k] + SortedKeys(s - {k});
      SortedKeysSpec(s - {k});
    }
  }

  /** A strictly increasing listing of a set is its sorted order: the order is unique. */
  lemma {:induction false} SortedKeysUnique(xs: seq<string>, s: set<string>)
    requires StrictlyIncreasing(xs)
    requires forall k :: k in xs <==> k in s
    ensures xs == SortedKeys(s)
    decreases |xs|
  {
    if xs == [] {
      assert s == {};
    } else {
      var k := xs[0];
      forall j | j in s && j != k ensures Below(k, j) {
        var i :| 0 <= i < |xs| && xs[i] == j;
        assert i != 0;
      }
      assert IsLeast(k, s);
      LeastUnique(s);
      LeastExists(s);
      assert SortedKeys(s) == [k] + SortedKeys(s - {k});
      forall j ensures j in xs[1..] <==> j in s - {k} {
        if j in xs[1..] {
          var i :| 1 <= i < |xs| && xs[i] == j;
          assert Below(k, j);
          BelowIrreflexive(k);
        }
        if j in s - {k} {
          var i :| 0 <= i < |xs| && xs[i] == j;
          assert xs[1..][i - 1] == j;
        }
      }
      SortedKeysUnique(xs[1..], s - {k});
    }
  }

  // ---------------------------------------------------------------------------------------
  // url.Values.Encode
  // ---------------------------------------------------------------------------------------

  predicate IsByteForm(form: map<string, string>) {
    forall k :: k in form ==> IsByteString(k) && IsByteString(form[k])
  }

  /** `key=value` for each key of `keys`, joined by `&`: empty exactly when there is no key. */
  function EncodePairs(keys: seq<string>, form: map<string, string>): (r: string)
    requires IsByteForm(form)
    requires forall i :: 0 <= i < |keys| ==> keys[i] in form
    ensures r == "" <==> keys == []
    decreases |keys|
  {
    if keys == [] then ""
    else
      var pair := Escape(keys[0]) + "=" + Escape(form[keys[0]]);
      if |keys| == 1 then pair else pair + "&" + EncodePairs(keys[1..], form)
  }

  /** `url.Values.Encode`: the pairs in increasing key order; empty exactly for an empty form. */
  function Encode(form: map<string, string>): (r: string)
    requires IsByteForm(form)
    ensures r == "" <==> form == map[]
  {
    SortedKeysSpec(form.Keys);
    EncodePairs(SortedKeys(form.Keys), form)
  }

  // ---------------------------------------------------------------------------------------
  // The list-status form
  // ---------------------------------------------------------------------------------------

  const StatusFormKeys: set<string> := {"status", "is_rewatching", "num_watched_episodes", "score"}

  /** The form UpdateAnimeListStatus sends: one key per option that is set, with the watched
      count under `num_watched_episodes`. */
  function StatusForm(opts: AnimeListStatusParams): (form: map<string, string>)
    ensures form.Keys <= StatusFormKeys
    ensures "status" in form <==> opts.status.Some?
    ensures "is_rewatching" in form <==> opts.isRewatching.Some?
    ensures "num_watched_episodes" in form <==> opts.numEpisodesWatched.Some?
    ensures "score" in form <==> opts.score.Some?
    ensures opts.status.Some? ==> form["status"] == opts.status.value
    ensures opts.isRewatching.Some? ==> form["is_rewatching"] == FormatBool(opts.isRewatching.value)
    ensures opts.numEpisodesWatched.Some? ==> form["num_watched_episodes"] == FormatInt(opts.numEpisodesWatched.value)
    ensures opts.score.Some? ==> form["score"] == FormatInt(opts.score.value)
  {
    var f1: map<string, string> := if opts.status.Some? then map["status" := opts.status.value] else map[];
    var f2 := if opts.isRewatching.Some? then f1["is_rewatching" := FormatBool(opts.isRewatching.value)] else f1;
    var f3 := if opts.numEpisodesWatched.Some? then f2["num_watched_episodes" := FormatInt(opts.numEpisodesWatched.value)] else f2;
    if opts.score.Some? then f3["score" := FormatInt(opts.score.value)] else f3
  }

  lemma FormKeysUnreserved()
    ensures forall k :: k in StatusFormKeys ==> AllUnreserved(k) && IsByteString(k)
  {
    assert AllUnreserved("status") && IsByteString("status");
    assert AllUnreserved("is_rewatching") && IsByteString("is_rewatching");
    assert AllUnreserved("num_watched_episodes") && IsByteString("num_watched_episodes");
    assert AllUnreserved("score") && IsByteString("score");
  }

  /** The status is the only value of the form that can hold bytes that need escaping: every
      key, and every other value, is unreserved, so `Escape` sends it as it is. */
  lemma StatusFormIsByteForm(opts: AnimeListStatusParams)
    requires opts.status.Some? ==> IsByteString(opts.status.value)
    ensures IsByteForm(StatusForm(opts))
    ensures forall k :: k in StatusForm(opts) ==>
              AllUnreserved(k) && (k != "status" ==> AllUnreserved(StatusForm(opts)[k]))
  {
    var form := StatusForm(opts);
    FormKeysUnreserved();
    forall k | k in form
      ensures IsByteString(k) && IsByteString(form[k]) && AllUnreserved(k)
      ensures k != "status" ==> AllUnreserved(form[k])
    {
      assert k in StatusFormKeys;
      if k == "is_rewatching" {
        FormattedValuesUnreserved(0, opts.isRewatching.value);
      } else if k == "num_watched_episodes" {
        FormattedValuesUnreserved(opts.numEpisodesWatched.value, true);
      } else if k == "score" {
        FormattedValuesUnreserved(opts.score.value, true);
      } else {
        assert k == "status";
      }
    }
  }

  /** With no option set the body is empty. */
  lemma NoOptionsEmptyBody()
    ensures StatusForm(AnimeListStatusParams(None, None, None, None)) == map[]
    ensures Encode(map[]) == ""
  {
  }

  lemma {:induction false} UnreservedNeedsNoEscaping(s: string)
    requires AllUnreserved(s)
    ensures IsByteString(s) && Escape(s) == s
    decreases |s|
  {
    if s != [] {
      assert AllUnreserved(s[1..]) by {
        forall i | 0 <= i < |s| - 1 ensures Unreserved(s[1..][i]) {
          assert s[1..][i] == s[i + 1];
        }
      }
      UnreservedNeedsNoEscaping(s[1..]);
    }
  }

  lemma SortedTwoKeys(k1: string, k2: string)
    requires Below(k1, k2)
    ensures SortedKeys({k1, k2}) == [k1, k2]
  {
    BelowIrreflexive(k1);
    assert forall k :: k in [k1, k2] <==> k in {k1, k2};
    SortedKeysUnique([k1, k2], {k1, k2});
  }

  lemma EncodePairsTwo(k1: string, k2: string, form: map<string, string>)
    requires IsByteForm(form) && k1 in form && k2 in form
    ensures EncodePairs([k1, k2], form) ==
              Escape(k1) + "=" + Escape(form[k1]) + "&" + Escape(k2) + "=" + Escape(form[k2])
  {
    assert [k1, k2][1..] == [k2];
  }

  /** A two-key form whose keys and values need no escaping. */
  lemma EncodeTwoKeys(k1: string, v1: string, k2: string, v2: string)
    requires Below(k1, k2)
    requires AllUnreserved(k1) && AllUnreserved(v1) && AllUnreserved(k2) && AllUnreserved(v2)
    ensures IsByteForm(map[k1 := v1, k2 := v2])
    ensures Encode(map[k1 := v1, k2 := v2]) == k1 + "=" + v1 + "&" + k2 + "=" + v2
  {
    UnreservedNeedsNoEscaping(k1);
    UnreservedNeedsNoEscaping(v1);
    UnreservedNeedsNoEscaping(k2);
    UnreservedNeedsNoEscaping(v2);
    var form := map[k1 := v1, k2 := v2];
    BelowIrreflexive(k1);
    assert form[k1] == v1 && form[k2] == v2;
    assert IsByteForm(form);
    assert form.Keys == {k1, k2};
    SortedTwoKeys(k1, k2);
    assert Encode(form) == EncodePairs([k1, k2], form);
    EncodePairsTwo(k1, k2, form);
  }

  /** The watched count, when set, then the status, as a form body. */
  function ProgressUpdateBody(watched: Option<int>, status: string): string {
    match watched
    case Some(n) => "num_watched_episodes" + "=" + FormatInt(n) + "&" + "status" + "=" + status
    case None => "status" + "=" + status
  }

  /** A one-key form whose key and value need no escaping. */
  lemma EncodeOneKey(k: string, v: string)
    requires AllUnreserved(k) && AllUnreserved(v)
    ensures IsByteForm(map[k := v])
    ensures Encode(map[k := v]) == k + "=" + v
  {
    UnreservedNeedsNoEscaping(k);
    UnreservedNeedsNoEscaping(v);
    var form := map[k := v];
    assert form.Keys == {k};
    SortedKeysUnique([k], {k});
    assert Encode(form) == EncodePairs([k], form);
  }

  lemma CountedProgressBody(status: string, n: int)
    requires AllUnreserved(status)
    ensures var form := StatusForm(AnimeListStatusParams(Some(status), None, Some(n), None));
            IsByteForm(form) && Encode(form) == ProgressUpdateBody(Some(n), status)
  {
    var form := StatusForm(AnimeListStatusParams(Some(status), None, Some(n), None));
    assert form.Keys == {"num_watched_episodes", "status"};
    assert form == map["num_watched_episodes" := FormatInt(n), "status" := status];
    FormatNatUnreserved(if n < 0 then -n else n);
    assert AllUnreserved(FormatInt(n));
    assert AllUnreserved("num_watched_episodes") && AllUnreserved("status");
    EncodeTwoKeys("num_watched_episodes", FormatInt(n), "status", status);
  }

  lemma UncountedProgressBody(status: string)
    requires AllUnreserved(status)
    ensures var form := StatusForm(AnimeListStatusParams(Some(status), None, None, None));
            IsByteForm(form) && Encode(form) == ProgressUpdateBody(None, status)
  {
    var form := StatusForm(AnimeListStatusParams(Some(status), None, None, None));
    assert form == map["status" := status];
    assert AllUnreserved("status");
    EncodeOneKey("status", status);
  }

  /** The body UpdateAnimeProgress sends: the watched count if it is set, then the status. */
  lemma ProgressBody(status: string, watched: Option<int>)
    requires AllUnreserved(status)
    ensures var form := StatusForm(AnimeListStatusParams(Some(status), None, watched, None));
            IsByteForm(form) && Encode(form) == ProgressUpdateBody(watched, status)
  {
    match watched
    case Some(n) => CountedProgressBody(status, n);
    case None => UncountedProgressBody(status);
  }

  // ---------------------------------------------------------------------------------------
  // Requests
  // ---------------------------------------------------------------------------------------

  const AnimePath: string := "/anime/"
  const DetailsQuery: string := "?fields=" + BaseAnimeFields
  const ListStatusPath: string := "/my_list_status"
  const CollectionPath: string := "/users/@me/animelist?fields=list_status&limit=1000"

  lemma UnframeAt(p: string, x: string, s: string, whole: string)
    requires whole == p + x + s
    ensures HasPrefix(whole, p) && |p| + |s| <= |whole|
    ensures whole[|p|..|whole| - |s|] == x && whole[|whole| - |s|..] == s
  {
    assert whole[..|p|] == p;
  }

  /** The details URL of an anime: under the base, ending in the field query, with the anime's
      ID readable back from the path segment between them. */
  function AnimeDetailsUrl(base: string, mId: int): (url: string)
    ensures HasPrefix(url, base + AnimePath) && |base + AnimePath| + |DetailsQuery| <= |url|
    ensures url[|url| - |DetailsQuery|..] == DetailsQuery
    ensures ParseInt(url[|base + AnimePath|..|url| - |DetailsQuery|]) == Some(mId)
  {
    FormatIntRoundTrip(mId);
    UnframeAt(base + AnimePath, FormatInt(mId), DetailsQuery, base + AnimePath + FormatInt(mId) + DetailsQuery);
    base + AnimePath + FormatInt(mId) + DetailsQuery
  }

  /** The list-status URL of an anime, shared by update and delete: under the base, ending in
      `/my_list_status`, with the anime's ID readable back from the path. */
  function AnimeListStatusUrl(base: string, mId: int): (url: string)
    ensures HasPrefix(url, base + AnimePath) && |base + AnimePath| + |ListStatusPath| <= |url|
    ensures url[|url| - |ListStatusPath|..] == ListStatusPath
    ensures ParseInt(url[|base + AnimePath|..|url| - |ListStatusPath|]) == Some(mId)
  {
    FormatIntRoundTrip(mId);
    UnframeAt(base + AnimePath, FormatInt(mId), ListStatusPath, base + AnimePath + FormatInt(mId) + ListStatusPath);
    base + AnimePath + FormatInt(mId) + ListStatusPath
  }

  /** The signed-in user's list, under the base. */
  function AnimeCollectionUrl(base: string): (url: string)
    ensures HasPrefix(url, base) && url[|base|..] == CollectionPath
  {
    UnframeAt(base, CollectionPath, "", base + CollectionPath + "");
    base + CollectionPath
  }

  /** Distinct anime have distinct list-status URLs. */
  lemma AnimeListStatusUrlInjective(base: string, a: int, b: int)
    ensures AnimeListStatusUrl(base, a) == AnimeListStatusUrl(base, b) ==> a == b
  {
  }

  /** The status UpdateAnimeProgress picks. The watched count is read only for an anime that
      has finished airing; there a missing count is a nil dereference in Go. */
  function ProgressStatus(anime: BasicAnime, watched: Option<int>): (status: string)
    requires anime.status == MediaStatusFinishedAiring ==> watched.Some?
    ensures status == MediaListStatusCompleted <==>
              anime.status == MediaStatusFinishedAiring && watched == Some(anime.numEpisodes)
    ensures status == MediaListStatusCompleted || status == MediaListStatusWatching
    ensures AllUnreserved(status)
  {
    if anime.status == MediaStatusFinishedAiring && anime.numEpisodes == watched.value then
      MediaListStatusCompleted
    else
      MediaListStatusWatching
  }

  class Wrapper {
    const accessToken: string
    /** ApiBaseURL, declared in a file that is not part of this model. */
    const baseUrl: string
    /** The requests handed to doQuery and doMutation, oldest first. */
    var sent: seq<Request>

    constructor (accessToken: string, baseUrl: string)
      ensures this.accessToken == accessToken && this.baseUrl == baseUrl && sent == []
    {
      this.accessToken := accessToken;
      this.baseUrl := baseUrl;
      sent := [];
    }

    /** `response` is what the server's answer decodes to. */
    method GetAnimeDetails(mId: int, response: Result<BasicAnime, Error>) returns (r: Result<BasicAnime, Error>)
      modifies this
      ensures accessToken == "" ==> r == Failure(Plain("access token is empty")) && sent == old(sent)
      ensures accessToken != "" ==>
                r == response && sent == old(sent) + [Request("GET", AnimeDetailsUrl(baseUrl, mId), "")]
    {
      var reqUrl := AnimeDetailsUrl(baseUrl, mId);
      if accessToken == "" {
        return Failure(Plain("access token is empty"));
      }
      sent := sent + [Request("GET", reqUrl, "")];
      r := response;
    }

    method GetAnimeCollection(response: Result<seq<BasicAnime>, Error>) returns (r: Result<seq<BasicAnime>, Error>)
      modifies this
      ensures r == response && sent == old(sent) + [Request("GET", AnimeCollectionUrl(baseUrl), "")]
    {
      sent := sent + [Request("GET", AnimeCollectionUrl(baseUrl), "")];
      r := response;
    }

    /** `details` is the answer to the details query, `response` the answer to the update. */
    method UpdateAnimeProgress(opts: AnimeListProgressParams, mId: int,
                               details: Result<BasicAnime, Error>, response: Option<Error>)
      returns (err: Option<Error>)
      requires accessToken != "" && details.Success? && details.value.status == MediaStatusFinishedAiring ==>
                 opts.numEpisodesWatched.Some?
      modifies this
      ensures accessToken == "" ==> err == Some(Plain("access token is empty")) && sent == old(sent)
      ensures accessToken != "" && details.Failure? ==>
                err == Some(details.error) && sent == old(sent) + [Request("GET", AnimeDetailsUrl(baseUrl, mId), "")]
      ensures accessToken != "" && details.Success? ==>
                var status := ProgressStatus(details.value, opts.numEpisodesWatched);
                && err == response
                && sent == old(sent) + [Request("GET", AnimeDetailsUrl(baseUrl, mId), ""),
                                        Request("PATCH", AnimeListStatusUrl(baseUrl, mId),
                                                ProgressUpdateBody(opts.numEpisodesWatched, status))]
    {
      var anime := GetAnimeDetails(mId, details);
      if anime.Failure? {
        return Some(anime.error);
      }

      var status := MediaListStatusWatching;
      if anime.value.status == MediaStatusFinishedAiring && anime.value.numEpisodes == opts.numEpisodesWatched.value {
        status := MediaListStatusCompleted;
      }

      assert status == ProgressStatus(anime.value, opts.numEpisodesWatched);
      var params := AnimeListStatusParams(Some(status), None, opts.numEpisodesWatched, None);
      ProgressBody(status, opts.numEpisodesWatched);
      assert Encode(StatusForm(params)) == ProgressUpdateBody(opts.numEpisodesWatched, status);
      err := UpdateAnimeListStatus(params, mId, response);
    }

    method UpdateAnimeListStatus(opts: AnimeListStatusParams, mId: int, response: Option<Error>)
      returns (err: Option<Error>)
      requires opts.status.Some? ==> IsByteString(opts.status.value)
      modifies this
      ensures IsByteForm(StatusForm(opts))
      ensures err == response
      ensures sent == old(sent) + [Request("PATCH", AnimeListStatusUrl(baseUrl, mId), Encode(StatusForm(opts)))]
    {
      var reqUrl := AnimeListStatusUrl(baseUrl, mId);

      var urlData: map<string, string> := map[];
      if opts.status.Some? {
        urlData := urlData["status" := opts.status.value];
      }
      if opts.isRewatching.Some? {
        urlData := urlData["is_rewatching" := FormatBool(opts.isRewatching.value)];
      }
      if opts.numEpisodesWatched.Some? {
        urlData := urlData["num_watched_episodes" := FormatInt(opts.numEpisodesWatched.value)];
      }
      if opts.score.Some? {
        urlData := urlData["score" := FormatInt(opts.score.value)];
      }
      assert urlData == StatusForm(opts);
      StatusFormIsByteForm(opts);
      var encodedData := Encode(urlData);

      sent := sent + [Request("PATCH", reqUrl, encodedData)];
      err := response;
    }

    method DeleteAnimeListItem(mId: int, response: Option<Error>) returns (err: Option<Error>)
      modifies this
      ensures err == response
      ensures sent == old(sent) + [Request("DELETE", AnimeListStatusUrl(baseUrl, mId), "")]
    {
      sent := sent + [Request("DELETE", AnimeListStatusUrl(baseUrl, mId), "")];
      err := response;
    }
  }
}
