/**
 * The link check run on `/download <link>` (bot.py:42-49): the pattern
 *   (https?://)?(www\.)?(youtube|youtu|youtube-nocookie)\.(com|be)/
 *   (watch\?v=|embed/|v/|.+\?v=)?([^&=%\?]{11})
 * applied with Python's `re.match`, which anchors at the start of the link
 * only, so anything may follow the 11-character video id.
 *
 * `RegexMatch` states what the pattern accepts as an existential over the
 * choices the pattern leaves open; `IsValidYoutubeUrl` is a hand-written
 * matcher that decides it; `ValidatorIsRegex` proves the two agree.
 */
module YoutubeUrl {

  // ---------------------------------------------------------------------
  // The pattern, piece by piece
  // ---------------------------------------------------------------------

  /** Number of characters in the final group `[^&=%\?]{11}`. */
  const IdLength: nat := 11

  /** A character the class `[^&=%\?]` accepts. */
  predicate IdChar(c: char) {
    c != '&' && c != '=' && c != '%' && c != '?'
  }

  /** `t` begins with an 11-character video id; whatever follows is allowed. */
  predicate StartsWithId(t: string) {
    |t| >= IdLength && forall k :: 0 <= k < IdLength ==> IdChar(t[k])
  }

  /** The alternative `.+\?v=`: one or more characters other than a newline
      (Python's `.` never matches '\n'), then "?v=". */
  predicate AnyThenQueryV(s: string) {
    |s| >= 4 && s[|s| - 3..] == "?v=" && forall k :: 0 <= k < |s| - 3 ==> s[k] != '\n'
  }

  /** The optional group `(watch\?v=|embed/|v/|.+\?v=)?`, where "" is its absence. */
  predicate IsPathLead(s: string) {
    s == "" || s == "watch?v=" || s == "embed/" || s == "v/" || AnyThenQueryV(s)
  }

  predicate IsScheme(s: string) { s == "" || s == "http://" || s == "https://" }
  predicate IsWww(s: string) { s == "" || s == "www." }
  predicate IsHost(s: string) { s == "youtube" || s == "youtu" || s == "youtube-nocookie" }
  predicate IsDomain(s: string) { s == "com" || s == "be" }

  /** The literal text the first four groups and the two fixed characters produce. */
  function Head(scheme: string, www: string, host: string, domain: string): string {
    scheme + (www + (host + ("." + (domain + "/"))))
  }

  /** The rest of the link, after the head, is a path lead followed by an id. */
  ghost predicate LeadThenId(t: string) {
    exists m: nat :: m <= |t| && IsPathLead(t[..m]) && StartsWithId(t[m..])
  }

  /** What `re.match(youtube_regex, u) is not None` means: the link begins with
      some head the pattern allows, and the rest begins with a lead and an id. */
  ghost predicate RegexMatch(u: string) {
    exists scheme, www, host, domain ::
      IsScheme(scheme) && IsWww(www) && IsHost(host) && IsDomain(domain) &&
      Head(scheme, www, host, domain) <= u &&
      LeadThenId(u[|Head(scheme, www, host, domain)|..])
  }

  // ---------------------------------------------------------------------
  // The matcher
  // ---------------------------------------------------------------------

  /** `.+\?v=` followed by an id, where `.+` has already consumed `t[..k]`
      except for the check of its last character `t[k - 1]`. */
  predicate ScanQueryV(t: string, k: nat)
    requires 1 <= k <= |t|
    decreases |t| - k
  {
    t[k - 1] != '\n' &&
    (("?v=" <= t[k..] && StartsWithId(t[k + 3..])) || (k < |t| && ScanQueryV(t, k + 1)))
  }

  /** The optional path lead, tried alternative by alternative, then the id. */
  predicate MatchLead(t: string) {
    || StartsWithId(t)
    || ("watch?v=" <= t && StartsWithId(t[8..]))
    || ("embed/" <= t && StartsWithId(t[6..]))
    || ("v/" <= t && StartsWithId(t[2..]))
    || (|t| >= 1 && ScanQueryV(t, 1))
  }

  predicate MatchDomain(u: string) {
    || ("com/" <= u && MatchLead(u[4..]))
    || ("be/" <= u && MatchLead(u[3..]))
  }

  predicate MatchHost(u: string) {
    || ("youtube." <= u && MatchDomain(u[8..]))
    || ("youtu." <= u && MatchDomain(u[6..]))
    || ("youtube-nocookie." <= u && MatchDomain(u[17..]))
  }

  predicate MatchWww(u: string) {
    ("www." <= u && MatchHost(u[4..])) || MatchHost(u)
  }

  /** `is_valid_youtube_url` (bot.py:42-49). */
  predicate IsValidYoutubeUrl(u: string) {
    || ("http://" <= u && MatchWww(u[7..]))
    || ("https://" <= u && MatchWww(u[8..]))
    || MatchWww(u)
  }

  // ---------------------------------------------------------------------
  // The matcher decides the pattern
  // ---------------------------------------------------------------------

  /** `.+\?v=` then an id, with the `.+` part covering at least `t[..k]`. */
  ghost predicate QueryVFrom(t: string, k: nat) {
    exists m: nat :: k + 3 <= m <= |t| && AnyThenQueryV(t[..m]) && StartsWithId(t[m..])
  }

  lemma {:induction false} ScanQueryVIsQueryV(t: string, k: nat)
    requires 1 <= k <= |t|
    requires forall j :: 0 <= j < k - 1 ==> t[j] != '\n'
    ensures ScanQueryV(t, k) <==> QueryVFrom(t, k)
  {
    if ScanQueryV(t, k) {
      ScanFindsQueryV(t, k);
    }
    if QueryVFrom(t, k) {
      QueryVIsScanned(t, k);
    }
  }

  lemma {:induction false} ScanFindsQueryV(t: string, k: nat)
    requires 1 <= k <= |t|
    requires forall j :: 0 <= j < k - 1 ==> t[j] != '\n'
    requires ScanQueryV(t, k)
    ensures QueryVFrom(t, k)
    decreases |t| - k
  {
    if "?v=" <= t[k..] && StartsWithId(t[k + 3..]) {
      assert t[..k + 3][k..] == "?v=";
      assert AnyThenQueryV(t[..k + 3]);
      assert t[k + 3..] == t[(k + 3)..];
    } else {
      ScanFindsQueryV(t, k + 1);
      var m: nat :| k + 4 <= m <= |t| && AnyThenQueryV(t[..m]) && StartsWithId(t[m..]);
      assert k + 3 <= m;
    }
  }

  lemma {:induction false} QueryVIsScanned(t: string, k: nat)
    requires 1 <= k <= |t|
    requires QueryVFrom(t, k)
    ensures ScanQueryV(t, k)
    decreases |t| - k
  {
    var m: nat :| k + 3 <= m <= |t| && AnyThenQueryV(t[..m]) && StartsWithId(t[m..]);
    var s := t[..m];
    assert s[k - 1] == t[k - 1] && k - 1 < |s| - 3;
    assert t[k - 1] != '\n';
    if m == k + 3 {
      assert t[k..][..3] == s[|s| - 3..];
      assert "?v=" <= t[k..] && StartsWithId(t[k + 3..]);
    } else {
      assert QueryVFrom(t, k + 1);
      QueryVIsScanned(t, k + 1);
    }
  }

  lemma MatchLeadIsLeadThenId(t: string)
    ensures MatchLead(t) <==> LeadThenId(t)
  {
    if |t| >= 1 {
      ScanQueryVIsQueryV(t, 1);
    }
    if MatchLead(t) {
      if "v/" <= t && StartsWithId(t[2..]) {
        assert IsPathLead(t[..2]);
      } else if "embed/" <= t && StartsWithId(t[6..]) {
        assert IsPathLead(t[..6]);
      } else if "watch?v=" <= t && StartsWithId(t[8..]) {
        assert IsPathLead(t[..8]);
      } else if StartsWithId(t) {
        assert IsPathLead(t[..0]) && t[0..] == t;
      } else {
        var m: nat :| 4 <= m <= |t| && AnyThenQueryV(t[..m]) && StartsWithId(t[m..]);
        assert IsPathLead(t[..m]);
      }
    }
    if LeadThenId(t) {
      var m: nat :| m <= |t| && IsPathLead(t[..m]) && StartsWithId(t[m..]);
      if t[..m] == "" {
        assert t[m..] == t;
      } else if t[..m] == "watch?v=" || t[..m] == "embed/" || t[..m] == "v/" {
      } else {
        assert QueryVFrom(t, 1);
      }
    }
  }

  /** `a + b` is a prefix of `u` exactly when `a` is and `b` is a prefix of what follows. */
  lemma PrefixConcat(a: string, b: string, u: string)
    ensures a + b <= u <==> (a <= u && b <= u[|a|..])
    ensures a + b <= u ==> u[|a + b|..] == u[|a|..][|b|..]
  {
    if a <= u && b <= u[|a|..] {
      assert u[..|a + b|] == a + b;
    }
  }

  lemma HeadSplit(scheme: string, www: string, host: string, domain: string, u: string)
    ensures var u1 := if |scheme| <= |u| then u[|scheme|..] else [];
      var u2 := if |www| <= |u1| then u1[|www|..] else [];
      var u3 := if |host| + 1 <= |u2| then u2[|host| + 1..] else [];
      (Head(scheme, www, host, domain) <= u <==>
        scheme <= u && www <= u1 && host + "." <= u2 && domain + "/" <= u3)
      && (Head(scheme, www, host, domain) <= u ==>
        u[|Head(scheme, www, host, domain)|..] == u3[|domain| + 1..])
  {
    var hd := host + ("." + (domain + "/"));
    assert hd == (host + ".") + (domain + "/");
    PrefixConcat(scheme, www + hd, u);
    if scheme <= u {
      var u1 := u[|scheme|..];
      PrefixConcat(www, hd, u1);
      if www <= u1 {
        PrefixConcat(host + ".", domain + "/", u1[|www|..]);
      }
    }
  }

  lemma DomainStep(v: string)
    ensures MatchDomain(v) <==>
      exists domain :: IsDomain(domain) && domain + "/" <= v && MatchLead(v[|domain| + 1..])
  {
    var com, be := "com", "be";
    assert com + "/" == "com/" && be + "/" == "be/";
    if exists domain :: IsDomain(domain) && domain + "/" <= v && MatchLead(v[|domain| + 1..]) {
      var domain :| IsDomain(domain) && domain + "/" <= v && MatchLead(v[|domain| + 1..]);
      assert domain == com || domain == be;
    }
  }

  lemma HostStep(v: string)
    ensures MatchHost(v) <==>
      exists host :: IsHost(host) && host + "." <= v && MatchDomain(v[|host| + 1..])
  {
    var long, short, nocookie := "youtube", "youtu", "youtube-nocookie";
    assert long + "." == "youtube." && short + "." == "youtu.";
    assert nocookie + "." == "youtube-nocookie.";
    if exists host :: IsHost(host) && host + "." <= v && MatchDomain(v[|host| + 1..]) {
      var host :| IsHost(host) && host + "." <= v && MatchDomain(v[|host| + 1..]);
      assert host == long || host == short || host == nocookie;
    }
  }

  lemma WwwStep(v: string)
    ensures MatchWww(v) <==> exists www :: IsWww(www) && www <= v && MatchHost(v[|www|..])
  {
    var none, www := "", "www.";
    assert v[|none|..] == v;
    if MatchHost(v) {
      assert IsWww(none) && none <= v;
    }
    if "www." <= v && MatchHost(v[4..]) {
      assert IsWww(www) && www <= v && v[|www|..] == v[4..];
    }
  }

  lemma SchemeStep(u: string)
    ensures IsValidYoutubeUrl(u) <==>
      exists scheme :: IsScheme(scheme) && scheme <= u && MatchWww(u[|scheme|..])
  {
    var none, http, https := "", "http://", "https://";
    assert u[|none|..] == u;
    if MatchWww(u) {
      assert IsScheme(none) && none <= u;
    }
    if "http://" <= u && MatchWww(u[7..]) {
      assert IsScheme(http) && http <= u && u[|http|..] == u[7..];
    }
    if "https://" <= u && MatchWww(u[8..]) {
      assert IsScheme(https) && https <= u && u[|https|..] == u[8..];
    }
  }

  /** The hand-written matcher accepts exactly the links the pattern matches. */
  lemma ValidatorIsRegex(u: string)
    ensures IsValidYoutubeUrl(u) <==> RegexMatch(u)
  {
    SchemeStep(u);
    if IsValidYoutubeUrl(u) {
      var scheme :| IsScheme(scheme) && scheme <= u && MatchWww(u[|scheme|..]);
      var u1 := u[|scheme|..];
      WwwStep(u1);
      var www :| IsWww(www) && www <= u1 && MatchHost(u1[|www|..]);
      var u2 := u1[|www|..];
      HostStep(u2);
      var host :| IsHost(host) && host + "." <= u2 && MatchDomain(u2[|host| + 1..]);
      var u3 := u2[|host| + 1..];
      DomainStep(u3);
      var domain :| IsDomain(domain) && domain + "/" <= u3 && MatchLead(u3[|domain| + 1..]);
      HeadSplit(scheme, www, host, domain, u);
      MatchLeadIsLeadThenId(u3[|domain| + 1..]);
      assert Head(scheme, www, host, domain) <= u;
    }
    if RegexMatch(u) {
      var scheme, www, host, domain :|
        IsScheme(scheme) && IsWww(www) && IsHost(host) && IsDomain(domain) &&
        Head(scheme, www, host, domain) <= u &&
        LeadThenId(u[|Head(scheme, www, host, domain)|..]);
      HeadSplit(scheme, www, host, domain, u);
      var u1 := u[|scheme|..];
      var u2 := u1[|www|..];
      var u3 := u2[|host| + 1..];
      MatchLeadIsLeadThenId(u3[|domain| + 1..]);
      DomainStep(u3);
      HostStep(u2);
      WwwStep(u1);
    }
  }

  // ---------------------------------------------------------------------
  // Consequences
  // ---------------------------------------------------------------------

  lemma LeadThenIdExtends(t: string, rest: string)
    requires LeadThenId(t)
    ensures LeadThenId(t + rest)
  {
    var m: nat :| m <= |t| && IsPathLead(t[..m]) && StartsWithId(t[m..]);
    assert (t + rest)[..m] == t[..m];
    assert (t + rest)[m..] == t[m..] + rest;
  }

  /** A head the pattern allows that fits `u` is a match. */
  lemma MatchedBy(scheme: string, www: string, host: string, domain: string, u: string)
    requires IsScheme(scheme) && IsWww(www) && IsHost(host) && IsDomain(domain)
    requires var h := Head(scheme, www, host, domain); h <= u && LeadThenId(u[|h|..])
    ensures RegexMatch(u)
  {
  }

  /** A head that fits `u`, followed by a lead and an id, still fits `u + rest`. */
  lemma HeadFitsExtends(h: string, u: string, rest: string)
    requires h <= u && LeadThenId(u[|h|..])
    ensures h <= u + rest && LeadThenId((u + rest)[|h|..])
  {
    var v := u + rest;
    assert v[..|h|] == u[..|h|];
    assert v[|h|..] == u[|h|..] + rest;
    LeadThenIdExtends(u[|h|..], rest);
  }

  lemma RegexMatchExtends(u: string, rest: string)
    requires RegexMatch(u)
    ensures RegexMatch(u + rest)
  {
    var scheme, www, host, domain :|
      IsScheme(scheme) && IsWww(www) && IsHost(host) && IsDomain(domain) &&
      Head(scheme, www, host, domain) <= u &&
      LeadThenId(u[|Head(scheme, www, host, domain)|..]);
    HeadFitsExtends(Head(scheme, www, host, domain), u, rest);
    MatchedBy(scheme, www, host, domain, u + rest);
  }

  /** `re.match` anchors only at the start: anything may follow an accepted link. */
  lemma AnySuffixAccepted(u: string, rest: string)
    requires IsValidYoutubeUrl(u)
    ensures IsValidYoutubeUrl(u + rest)
  {
    ValidatorIsRegex(u);
    RegexMatchExtends(u, rest);
    ValidatorIsRegex(u + rest);
  }

  /** A link must begin where the pattern begins: with a scheme, "www." or a host. */
  lemma AnchoredAtStart(u: string)
    requires u == [] || (u[0] != 'h' && u[0] != 'w' && u[0] != 'y')
    ensures !IsValidYoutubeUrl(u)
  {
  }

  /** A link assembled from choices the pattern allows is accepted. */
  lemma AcceptsAssembled(scheme: string, www: string, host: string, domain: string,
                         lead: string, id: string, rest: string)
    requires IsScheme(scheme) && IsWww(www) && IsHost(host) && IsDomain(domain)
    requires IsPathLead(lead) && |id| == IdLength && StartsWithId(id)
    ensures IsValidYoutubeUrl(Head(scheme, www, host, domain) + lead + id + rest)
  {
    var h := Head(scheme, www, host, domain);
    var t := lead + id + rest;
    LeadThenIdOf(lead, id, rest);
    HeadThen(h, t);
    assert h + lead + id + rest == h + t;
    MatchedBy(scheme, www, host, domain, h + t);
    ValidatorIsRegex(h + t);
  }

  lemma LeadThenIdOf(lead: string, id: string, rest: string)
    requires IsPathLead(lead) && StartsWithId(id)
    ensures LeadThenId(lead + id + rest)
  {
    var t := lead + id + rest;
    assert t[..|lead|] == lead;
    assert t[|lead|..] == id + rest;
  }

  lemma HeadThen(h: string, t: string)
    ensures h <= h + t && (h + t)[|h|..] == t
  {
  }

  lemma AcceptsWatchLink(u: string)
    requires u == "https://www.youtube.com/watch?v=dQw4w9WgXcQ"
    ensures IsValidYoutubeUrl(u)
  {
    var id := "dQw4w9WgXcQ";
    assert StartsWithId(id);
    var h := Head("https://", "www.", "youtube", "com");
    assert h == "https://www.youtube.com/";
    assert u == h + "watch?v=" + id + "";
    AcceptsAssembled("https://", "www.", "youtube", "com", "watch?v=", id, "");
  }

  lemma AcceptsShortLink(u: string)
    requires u == "https://youtu.be/dQw4w9WgXcQ"
    ensures IsValidYoutubeUrl(u)
  {
    var id := "dQw4w9WgXcQ";
    assert StartsWithId(id);
    assert u == Head("https://", "", "youtu", "be") + "" + id + "";
    AcceptsAssembled("https://", "", "youtu", "be", "", id, "");
  }

  lemma RejectsVimeoLink(u: string)
    requires u == "https://vimeo.com/12345"
    ensures !IsValidYoutubeUrl(u)
  {
    assert u[0] == 'h' && u[4] == 's';
    assert !("http://" <= u) && !MatchWww(u);
    var v := u[8..];
    assert v[0] == 'v';
    assert !("www." <= v) && !MatchHost(v);
  }
}
