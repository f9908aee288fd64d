/** PHP's `parse_url($uri, PHP_URL_PATH)`, the first step of the front
    controller's routing (public/index.php:38), written out as the parser of
    PHP 8 takes a string apart: an optional scheme, a port, an authority
    after `//`, then the path up to the query or the fragment. Only the path
    is kept. */
module Url {
  import opened Optional
  import opened Text

  /** What `parse_url($uri, PHP_URL_PATH)` returns: `false` for a string it
      refuses, `null` when there is no path, or the path. */
  datatype UrlPath = Rejected | NoPath | Path(path: string)

  /** C's `iscntrl` in the C locale. */
  predicate IsControl(c: char)
  {
    c < ' ' || c == '\U{007F}'
  }

  predicate Printable(s: string)
  {
    forall k | 0 <= k < |s| :: !IsControl(s[k])
  }

  /** The characters `parse_url` accepts in a scheme: letters, digits, `+`,
      `.` and `-`. */
  predicate IsSchemeChar(c: char)
  {
    'a' <= c <= 'z' || 'A' <= c <= 'Z' || IsDigit(c) || c == '+' || c == '.' || c == '-'
  }

  predicate IsScheme(s: string)
  {
    forall k | 0 <= k < |s| :: IsSchemeChar(s[k])
  }

  /** The scheme `file`, in any letter case. */
  predicate IsFileScheme(s: string)
  {
    |s| == 4 && s[0] in {'f', 'F'} && s[1] in {'i', 'I'} && s[2] in {'l', 'L'} && s[3] in {'e', 'E'}
  }

  /** C's `isspace` in the C locale. */
  predicate IsSpace(c: char)
  {
    c == ' ' || '\t' <= c <= '\r'
  }

  /** Every control character replaced by `_`, as `parse_url` does to the
      path it returns. */
  function Sanitize(s: string): (r: string)
    ensures |r| == |s| && Printable(r)
    ensures forall k | 0 <= k < |s| :: r[k] == if IsControl(s[k]) then '_' else s[k]
  {
    if s == [] then [] else [if IsControl(s[0]) then '_' else s[0]] + Sanitize(s[1..])
  }

  /** The first index at or after `from` holding a character of `cs`, or
      the length of `s` when there is none (`memchr`, `strcspn`). */
  function Find(s: string, from: nat, cs: set<char>): (i: nat)
    requires from <= |s|
    ensures from <= i <= |s|
    ensures i < |s| ==> s[i] in cs
    ensures forall k | from <= k < i :: s[k] !in cs
    decreases |s| - from
  {
    if from == |s| || s[from] in cs then from else Find(s, from + 1, cs)
  }

  /** The last index in [lo, hi) holding `c` (`memrchr`). */
  function FindLast(s: string, lo: nat, hi: nat, c: char): (r: Option<nat>)
    requires lo <= hi <= |s|
    ensures r.Some? ==> lo <= r.value < hi && s[r.value] == c
    ensures r.None? ==> forall k | lo <= k < hi :: s[k] != c
    decreases hi - lo
  {
    if hi == lo then None
    else if s[hi - 1] == c then Some(hi - 1)
    else FindLast(s, lo, hi - 1, c)
  }

  /** The end of the run of digits that starts at `from`, taking at most
      `limit` of them. */
  function DigitsEnd(s: string, from: nat, limit: nat): (i: nat)
    requires from <= |s|
    ensures from <= i <= |s| && i - from <= limit
    ensures IsDigits(s[from..i])
    ensures i < |s| && i - from < limit ==> !IsDigit(s[i])
    decreases limit
  {
    if from == |s| || limit == 0 || !IsDigit(s[from]) then from
    else
      var i := DigitsEnd(s, from + 1, limit - 1);
      assert s[from..i] == [s[from]] + s[from + 1..i];
      i
  }

  /** The index of the first character of `s` at or after `from` that is
      not white space. */
  function SkipSpace(s: string, from: nat): (i: nat)
    requires from <= |s|
    ensures from <= i <= |s| && (i < |s| ==> !IsSpace(s[i]))
    decreases |s| - from
  {
    if from < |s| && IsSpace(s[from]) then SkipSpace(s, from + 1) else from
  }

  /** C's `strtol(buf, &end, 10)` when it consumed something (`end != buf`):
      white space, an optional sign, then the longest run of digits. */
  function StrToL(s: string): Option<int>
  {
    var i := SkipSpace(s, 0);
    var j := if i < |s| && (s[i] == '+' || s[i] == '-') then i + 1 else i;
    var k := DigitsEnd(s, j, |s| - j);
    var v: int := if k == j then 0 else ParseDigits(s[j..k]);
    if k == j then None
    else if i < j && s[i] == '-' then Some(-v)
    else Some(v)
  }

  /** The `just_path` step from index `s`: the path runs to the first `?`
      or `#`, and is absent when it is empty and something follows it. */
  function JustPath(uri: string, s: nat): (p: UrlPath)
    requires s <= |uri|
    ensures p.Rejected? == false
    ensures p.NoPath? <==> s < |uri| && uri[s] in {'?', '#'}
    ensures p.Path? ==> Printable(p.path) && '?' !in p.path && '#' !in p.path && |p.path| <= |uri| - s
    ensures p.Path? ==> && p.path == Sanitize(uri[s..s + |p.path|])
                        && (s + |p.path| == |uri| || uri[s + |p.path|] in {'?', '#'})
  {
    var e := Find(uri, s, {'#'});
    var q := Find(uri, s, {'?'});
    var end := if q < e then q else e;
    if s < end || s == |uri| then
      var p := Sanitize(uri[s..end]);
      assert forall k | 0 <= k < |p| :: p[k] == '_' || p[k] == uri[s + k];
      Path(p)
    else NoPath
  }

  /** The labels of `parse_url`'s parser that are jumped to: the start,
      `parse_port` for the first `:` at index `colon`, and `parse_host` from
      index `from` with the port read so far (0 for none). The last label,
      `just_path`, is the function `JustPath`. */
  datatype Label = Start | ParsePort(colon: nat) | ParseHost(from: nat, port: nat)

  /** Each jump of the parser goes to a later label. */
  function Rank(at: Label): nat
  {
    match at
    case Start => 2
    case ParsePort(_) => 1
    case ParseHost(_, _) => 0
  }

  predicate InRange(uri: string, at: Label)
  {
    match at
    case Start => true
    case ParsePort(c) => c < |uri|
    case ParseHost(s, _) => s <= |uri|
  }

  /** Whether `uri` starts with `//`. */
  predicate TwoSlashes(uri: string)
  {
    |uri| >= 2 && uri[0] == '/' && uri[1] == '/'
  }

  /** The parser from label `at`.
      - Start: the first `:` decides whether a scheme or a port is looked
        for; without one, a leading `//` starts an authority and anything
        else is a path.
      - `parse_port`: one to five digits that end the string or are
        followed by `/` are a port (more than 65535 is refused), and a `//`
        prefix then starts an authority.
      - `parse_host`: the authority runs to the first `/`, `?` or `#`; user
        information before a `@` is dropped; a port after the last `:` must
        be at most five characters that `strtol` reads as 0 to 65535; the
        host left over must not be empty. */
  function Parse(uri: string, at: Label): (p: UrlPath)
    requires InRange(uri, at)
    ensures p.Path? ==> Printable(p.path) && '?' !in p.path && '#' !in p.path && |p.path| <= |uri|
    decreases Rank(at)
  {
    match at
    case Start =>
      var c := Find(uri, 0, {':'});
      if c < |uri| && c != 0 then
        if !IsScheme(uri[..c]) then
          if c + 1 < |uri| && c < Find(uri, 0, {'?', '#'}) then Parse(uri, ParsePort(c))
          else if TwoSlashes(uri) then Parse(uri, ParseHost(2, 0))
          else JustPath(uri, 0)
        else if c + 1 == |uri| then NoPath
        else if uri[c + 1] != '/' then
          var p := DigitsEnd(uri, c + 1, |uri| - (c + 1));
          if (p == |uri| || uri[p] == '/') && p - c < 7 then Parse(uri, ParsePort(c))
          else JustPath(uri, c + 1)
        else if c + 2 < |uri| && uri[c + 2] == '/' then
          if IsFileScheme(uri[..c]) && c + 3 < |uri| && uri[c + 3] == '/' then
            // `file:///c:/...` keeps the drive letter in the path
            JustPath(uri, if c + 5 < |uri| && uri[c + 5] == ':' then c + 4 else c + 3)
          else Parse(uri, ParseHost(c + 3, 0))
        else JustPath(uri, c + 1)
      else if c < |uri| then Parse(uri, ParsePort(0))
      else if TwoSlashes(uri) then Parse(uri, ParseHost(2, 0))
      else JustPath(uri, 0)
    case ParsePort(c) =>
      var p := c + 1;
      var pp := DigitsEnd(uri, p, 6);
      if 0 < pp - p < 6 && (pp == |uri| || uri[pp] == '/') then
        var v := ParseDigits(uri[p..pp]);
        if v <= 65535 then Parse(uri, ParseHost(if TwoSlashes(uri) then 2 else 0, v)) else Rejected
      else if p == pp && pp == |uri| then Rejected
      else if TwoSlashes(uri) then Parse(uri, ParseHost(2, 0))
      else JustPath(uri, 0)
    case ParseHost(s, port) =>
      var e := Find(uri, s, {'/', '?', '#'});
      var h := match FindLast(uri, s, e, '@') case Some(a) => a + 1 case None => s;
      // an IPv6 literal `[...]` is not searched for a port
      var colon := if h < e && uri[h] == '[' && uri[e - 1] == ']' then None else FindLast(uri, h, e, ':');
      var hostEnd: Option<nat> :=
        match colon
        case None => Some(e)
        case Some(c) =>
          if port != 0 || e - (c + 1) == 0 then Some(c)
          else if e - (c + 1) > 5 then None
          else
            match StrToL(uri[c + 1..e])
            case Some(v) => if 0 <= v <= 65535 then Some(c) else None
            case None => None;
      if hostEnd.None? || hostEnd.value < h + 1 then Rejected
      else if e == |uri| then NoPath
      else JustPath(uri, e)
  }

  /** `parse_url($uri, PHP_URL_PATH)`. */
  function PathOf(uri: string): (p: UrlPath)
    ensures p.Path? ==> Printable(p.path) && '?' !in p.path && '#' !in p.path && |p.path| <= |uri|
  {
    Parse(uri, Start)
  }

  /** A path with no `:`, `?` or `#` that does not start with `//`, followed
      by nothing or by a query or fragment, is parsed as that path with its
      control characters replaced; an empty path before a query is absent. */
  lemma PlainPath(path: string, tail: string)
    requires ':' !in path && '?' !in path && '#' !in path
    requires !(|path| >= 2 && path[0] == '/' && path[1] == '/')
    requires tail == [] || tail[0] == '?' || tail[0] == '#'
    ensures PathOf(path + tail) == if path == [] && tail != [] then NoPath else Path(Sanitize(path))
  {
    var uri := path + tail;
    assert forall k | 0 <= k < |path| :: uri[k] == path[k];
    var c := Find(uri, 0, {':'});
    if c < |uri| {
      assert uri[|path|] == tail[0];
      assert uri[..c][|path|] == tail[0];
      assert !IsScheme(uri[..c]);
      assert Find(uri, 0, {'?', '#'}) <= |path| by {
        assert uri[|path|] == tail[0];
      }
    }
    assert Parse(uri, Start) == JustPath(uri, 0);
    PlainJustPath(path, tail);
  }

  lemma PlainJustPath(path: string, tail: string)
    requires '?' !in path && '#' !in path
    requires tail == [] || tail[0] == '?' || tail[0] == '#'
    ensures JustPath(path + tail, 0) == if path == [] && tail != [] then NoPath else Path(Sanitize(path))
  {
    var uri := path + tail;
    assert forall k | 0 <= k < |path| :: uri[k] == path[k];
    var e := Find(uri, 0, {'#'});
    var q := Find(uri, 0, {'?'});
    assert e >= |path| && q >= |path|;
    if tail != [] {
      assert uri[|path|] == tail[0];
      assert e == |path| || q == |path|;
    }
    assert uri[0..|path|] == path;
  }

  /** `Find` is pinned down by where the first match is. */
  lemma FindIs(s: string, from: nat, cs: set<char>, i: nat)
    requires from <= i <= |s|
    requires forall k | from <= k < i :: s[k] !in cs
    requires i < |s| ==> s[i] in cs
    ensures Find(s, from, cs) == i
  {
  }

  /** `//` followed by a host and a path is a network-path reference: the
      host is taken off, and the path is what follows it. */
  lemma NetworkPath(host: string, path: string)
    requires host != [] && forall k | 0 <= k < |host| :: host[k] !in {'/', '?', '#', '@', ':'}
    requires path != [] && path[0] == '/'
    requires ':' !in path && '?' !in path && '#' !in path
    ensures PathOf("//" + host + path) == Path(Sanitize(path))
  {
    var uri := "//" + host + path;
    NetworkAuthority(host, path);
    NetworkJustPath(host, path);
    assert Parse(uri, Start) == Parse(uri, ParseHost(2, 0));
  }

  lemma NetworkAuthority(host: string, path: string)
    requires host != [] && forall k | 0 <= k < |host| :: host[k] !in {'/', '?', '#', '@', ':'}
    requires path != [] && path[0] == '/' && ':' !in path
    ensures var uri := "//" + host + path;
            && Find(uri, 0, {':'}) == |uri|
            && Parse(uri, ParseHost(2, 0)) == JustPath(uri, 2 + |host|)
  {
    var uri := "//" + host + path;
    var e := 2 + |host|;
    assert forall k | 2 <= k < e :: uri[k] == host[k - 2];
    assert forall k | e <= k < |uri| :: uri[k] == path[k - e];
    FindIs(uri, 2, {'/', '?', '#'}, e);
    FindIs(uri, 0, {':'}, |uri|);
    assert FindLast(uri, 2, e, '@') == None;
  }

  lemma NetworkJustPath(host: string, path: string)
    requires path != [] && '?' !in path && '#' !in path
    ensures var uri := "//" + host + path;
            JustPath(uri, 2 + |host|) == Path(Sanitize(path))
  {
    var uri := "//" + host + path;
    var e := 2 + |host|;
    assert forall k | e <= k < |uri| :: uri[k] == path[k - e];
    FindIs(uri, e, {'#'}, |uri|);
    FindIs(uri, e, {'?'}, |uri|);
    assert uri[e..|uri|] == path;
  }

  /** An authority that is empty makes `parse_url` return `false`, whatever
      a `:` later on says. */
  lemma EmptyAuthorityRejected(rest: string)
    requires rest == [] || rest[0] in {'/', '?', '#'}
    ensures PathOf("//" + rest) == Rejected
  {
    var uri := "//" + rest;
    var c := Find(uri, 0, {':'});
    forall port: nat ensures Parse(uri, ParseHost(2, port)) == Rejected {
      EmptyHostRejected(uri, port);
    }
    if c < |uri| {
      assert !IsSchemeChar(uri[..c][0]);
      if c + 1 < |uri| && c < Find(uri, 0, {'?', '#'}) {
        assert Parse(uri, ParsePort(c)) == Rejected;
      }
    }
  }

  lemma EmptyHostRejected(uri: string, port: nat)
    requires |uri| >= 2 && (|uri| == 2 || uri[2] in {'/', '?', '#'})
    ensures Parse(uri, ParseHost(2, port)) == Rejected
  {
    assert Find(uri, 2, {'/', '?', '#'}) == 2;
  }
}
