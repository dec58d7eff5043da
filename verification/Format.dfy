/** utils/Format: hexadecimal sizes, and the room name taken from a request line and from a publish URL. */
module Format {
  datatype Option<T> = None | Some(value: T)

  const HEX_DIGITS := "0123456789abcdef"

  function ToHexString(n: nat): (s: string)
    ensures s != []
  {
    if n < 16 then [HEX_DIGITS[n]] else ToHexString(n / 16) + [HEX_DIGITS[n % 16]]
  }

  function ToHexStringWithCrlf(n: nat): string {
    ToHexString(n) + "\r\n"
  }

  /** Lower-case digits, and no leading zero. */
  lemma {:induction false} HexIsPlain(n: nat)
    ensures var s := ToHexString(n);
      && (forall i :: 0 <= i < |s| ==> '0' <= s[i] <= '9' || 'a' <= s[i] <= 'f')
      && (s[0] == '0' <==> n == 0)
  {
    if n >= 16 {
      HexIsPlain(n / 16);
    }
  }

  // ---------------------------------------------------------------- std::string

  const SIZE_MAX := 0x1_0000_0000_0000_0000
  const NPOS := SIZE_MAX - 1

  /** `find(c, from)`: the first position from `from` on, or npos. */
  function Find(s: string, c: char, from: nat): (i: nat)
    requires |s| < NPOS
    ensures i == NPOS || (from <= i < |s| && s[i] == c)
    ensures forall k :: from <= k < |s| && k < i ==> s[k] != c
    decreases |s| - from
  {
    if from >= |s| then NPOS else if s[from] == c then from else Find(s, c, from + 1)
  }

  /** `find("//")`. */
  function FindSlashes(s: string, from: nat): (i: nat)
    requires |s| < NPOS
    ensures i == NPOS || (from <= i && i + 2 <= |s|)
    decreases |s| - from
  {
    if from + 2 > |s| then NPOS else if s[from] == '/' && s[from + 1] == '/' then from else FindSlashes(s, from + 1)
  }

  /** `substr(position, count)`. */
  function Substr(s: string, position: nat, count: nat): string
    requires position <= |s|
  {
    if count > |s| - position then s[position..] else s[position..position + count]
  }

  /** One `size_t` addition or subtraction. */
  function Wrap(n: int): (w: nat)
    requires -SIZE_MAX <= n < 2 * SIZE_MAX
  {
    if n < 0 then n + SIZE_MAX else if n < SIZE_MAX then n else n - SIZE_MAX
  }

  /** The request line has a second space; without it the source indexes outside the string. */
  predicate IsRequestLine(s: string)
    requires |s| < NPOS
  {
    var first := Find(s, ' ', 0);
    first != NPOS && Find(s, ' ', first + 1) != NPOS
  }

  function GetUrl(s: string): string
    requires |s| < NPOS && IsRequestLine(s)
  {
    var url_begin := Find(s, ' ', 0) + 1;
    var space := Find(s, ' ', url_begin);
    var url_end := if s[space - 1] == '/' then space - 1 else space;
    Substr(s, url_begin + 1, Wrap(url_end - url_begin - 1))
  }

  /** Drops the first character, and a '/' at the end. */
  function Unslashed(path: string): string
    requires 0 < |path| < NPOS
  {
    var path_len := if path[|path| - 1] == '/' then |path| - 1 else |path|;
    Substr(path, 1, Wrap(path_len - 1))
  }

  /** None where `substr` throws std::out_of_range: no '/' behind the host. */
  function GetPathFromUrl(url: string): Option<string>
    requires |url| < NPOS
  {
    var idx := FindSlashes(url, 0);
    var idx1 := Find(url, '/', Wrap(idx + 2));
    if idx1 > |url| then None
    else Some(Unslashed(url[idx1..]))
  }

  // ---------------------------------------------------------------- both ends name the same room

  /** The room that a target names: at most one trailing slash is dropped. */
  function Room(target: string): string
    requires target != ""
  {
    if target[|target| - 1] == '/' then target[..|target| - 1] else target
  }

  lemma FindAfter(s: string, c: char, from: nat, at: nat)
    requires |s| < NPOS && from <= at < |s| && s[at] == c
    requires forall k :: from <= k < at ==> s[k] != c
    ensures Find(s, c, from) == at
  {
  }

  lemma {:induction false} FindSlashesAfter(s: string, from: nat, at: nat)
    requires |s| < NPOS && from <= at && at + 2 <= |s| && s[at] == s[at + 1] == '/'
    requires forall k :: from <= k < at ==> s[k] != '/'
    ensures FindSlashes(s, from) == at
    decreases at - from
  {
    if from < at {
      FindSlashesAfter(s, from + 1, at);
    }
  }

  predicate Request(verb: string, target: string, rest: string) {
    |verb| + |target| + |rest| + 3 < NPOS && ' ' !in verb && ' ' !in target
  }

  function RequestLine(verb: string, target: string, rest: string): string {
    verb + (" /" + (target + (" " + rest)))
  }

  /** The substring between two positions, or everything from the first on when they are the wrong way round by one. */
  lemma SubstrBetween(s: string, from: nat, to: nat)
    requires |s| < NPOS && from <= |s| && to <= |s| && from <= to + 1
    ensures Substr(s, from, Wrap(to - from)) == if from <= to then s[from..to] else s[from..]
  {
  }

  /** GetUrl in terms of the two spaces it finds. */
  lemma GetUrlBetween(s: string, begin: nat, end: nat)
    requires |s| < NPOS && 0 < begin < end < |s|
    requires Find(s, ' ', 0) == begin - 1 && Find(s, ' ', begin) == end
    ensures IsRequestLine(s)
    ensures GetUrl(s) ==
      if s[end - 1] != '/' then s[begin + 1..end]
      else if end == begin + 1 then s[end..] else s[begin + 1..end - 1]
  {
    SubstrBetween(s, begin + 1, if s[end - 1] == '/' then end - 1 else end);
  }

  lemma RequestPositions(verb: string, target: string, rest: string)
    requires Request(verb, target, rest)
    ensures var s, begin, end := RequestLine(verb, target, rest), |verb| + 1, |verb| + 2 + |target|;
      && |s| == end + 1 + |rest|
      && Find(s, ' ', 0) == begin - 1 && Find(s, ' ', begin) == end
      && s[begin] == '/' && s[begin + 1..end] == target && s[end..] == " " + rest
  {
    var s := RequestLine(verb, target, rest);
    FindAfter(s, ' ', 0, |verb|);
    FindAfter(s, ' ', |verb| + 1, |verb| + 2 + |target|);
  }

  lemma LastOfSlice(s: string, i: nat, j: nat)
    requires i < j <= |s|
    ensures s[i..j][j - i - 1] == s[j - 1] && s[i..j][..j - i - 1] == s[i..j - 1]
  {
  }

  lemma GetUrlNamesRoom(verb: string, target: string, rest: string)
    requires Request(verb, target, rest)
    ensures IsRequestLine(RequestLine(verb, target, rest))
    ensures var url := GetUrl(RequestLine(verb, target, rest));
      if target == "" then url == " " + rest else url == Room(target)
  {
    hide RequestLine, GetUrl, Find, IsRequestLine;
    var s, begin, end := RequestLine(verb, target, rest), |verb| + 1, |verb| + 2 + |target|;
    RequestPositions(verb, target, rest);
    GetUrlBetween(s, begin, end);
    if target != "" {
      LastOfSlice(s, begin + 1, end);
    }
  }

  lemma UnslashedTarget(target: string)
    requires |target| + 1 < NPOS
    ensures Unslashed("/" + target) == if target == "" then "" else Room(target)
  {
    var path := "/" + target;
    SubstrBetween(path, 1, if path[|path| - 1] == '/' then |path| - 1 else |path|);
    if target != "" {
      assert path[1..|path|] == target && path[1..|path| - 1] == target[..|target| - 1];
    }
  }

  function PublishUrl(scheme: string, host: string, target: string): string {
    scheme + ("//" + (host + ("/" + target)))
  }

  predicate Location(scheme: string, host: string, target: string) {
    |scheme| + |host| + |target| + 3 < NPOS && '/' !in scheme && '/' !in host
  }

  lemma PublishUrlPositions(scheme: string, host: string, target: string)
    requires Location(scheme, host, target)
    ensures var url, k := PublishUrl(scheme, host, target), |scheme| + 2 + |host|;
      && |url| == k + 1 + |target|
      && FindSlashes(url, 0) == |scheme| && Find(url, '/', |scheme| + 2) == k
      && url[k..] == "/" + target
  {
    var url := PublishUrl(scheme, host, target);
    FindSlashesAfter(url, 0, |scheme|);
    FindAfter(url, '/', |scheme| + 2, |scheme| + 2 + |host|);
  }

  lemma GetPathFrom(url: string, slashes: nat, slash: nat)
    requires |url| < NPOS && slashes + 2 <= slash < |url|
    requires FindSlashes(url, 0) == slashes && Find(url, '/', slashes + 2) == slash
    ensures GetPathFromUrl(url) == Some(Unslashed(url[slash..]))
  {
  }

  lemma GetPathNamesRoom(scheme: string, host: string, target: string)
    requires Location(scheme, host, target)
    ensures GetPathFromUrl(PublishUrl(scheme, host, target)) == Some(if target == "" then "" else Room(target))
  {
    PublishUrlPositions(scheme, host, target);
    GetPathFrom(PublishUrl(scheme, host, target), |scheme|, |scheme| + 2 + |host|);
    UnslashedTarget(target);
  }

  /** A viewer asking for a target finds the room that a publisher opened under it, with or without a
      trailing slash, if and only if the target is not empty. */
  lemma RoomsAgree(verb: string, rest: string, scheme: string, host: string, target: string)
    requires Request(verb, target, rest)
    requires Location(scheme, host, target)
    ensures IsRequestLine(RequestLine(verb, target, rest))
    ensures Some(GetUrl(RequestLine(verb, target, rest))) == GetPathFromUrl(PublishUrl(scheme, host, target))
      <==> target != ""
  {
    GetUrlNamesRoom(verb, target, rest);
    GetPathNamesRoom(scheme, host, target);
  }

  /** Where the two ends disagree: for an empty target GetUrl names the room " " + rest, the end of the
      request line. A publisher opens that room if and only if its target is these characters and a slash,
      or these characters alone when they do not end in one; an empty target never does. */
  lemma EmptyTargetRoom(verb: string, rest: string, scheme: string, host: string, target: string)
    requires Request(verb, "", rest) && Location(scheme, host, target)
    ensures IsRequestLine(RequestLine(verb, "", rest))
    ensures Some(GetUrl(RequestLine(verb, "", rest))) == GetPathFromUrl(PublishUrl(scheme, host, target))
      <==> target == " " + rest + "/" || (target == " " + rest && target[|target| - 1] != '/')
  {
    hide GetUrl, GetPathFromUrl, RequestLine, PublishUrl, IsRequestLine, Location, Request;
    GetUrlNamesRoom(verb, "", rest);
    GetPathNamesRoom(scheme, host, target);
    var room := " " + rest;
    if target != "" && target[|target| - 1] == '/' {
      assert target == target[..|target| - 1] + "/";
      assert target == room + "/" ==> target[..|target| - 1] == room;
    }
  }

  /** One trailing slash is dropped at either end, whatever is in front of it, and nothing else. */
  lemma TrailingSlashIsIgnored(verb: string, rest: string, scheme: string, host: string, target: string)
    requires Request(verb, target + "/", rest) && Location(scheme, host, target + "/") && target != ""
    ensures IsRequestLine(RequestLine(verb, target + "/", rest)) && IsRequestLine(RequestLine(verb, target, rest))
    ensures GetUrl(RequestLine(verb, target + "/", rest)) == target
    ensures GetPathFromUrl(PublishUrl(scheme, host, target + "/")) == Some(target)
    ensures target[|target| - 1] != '/' ==>
      && GetUrl(RequestLine(verb, target, rest)) == target
      && GetPathFromUrl(PublishUrl(scheme, host, target)) == Some(target)
  {
    hide GetUrl, GetPathFromUrl, RequestLine, PublishUrl, IsRequestLine;
    GetUrlNamesRoom(verb, target, rest);
    GetUrlNamesRoom(verb, target + "/", rest);
    GetPathNamesRoom(scheme, host, target);
    GetPathNamesRoom(scheme, host, target + "/");
    assert (target + "/")[..|target|] == target;
  }

  // ---------------------------------------------------------------- any publish URL

  predicate SlashesAt(url: string, k: int) {
    0 <= k && k + 2 <= |url| && url[k] == '/' && url[k + 1] == '/'
  }

  lemma {:induction false} FindSlashesIsFirst(url: string, from: nat)
    requires |url| < NPOS
    ensures var i := FindSlashes(url, from);
      && (i != NPOS ==> SlashesAt(url, i))
      && forall k :: from <= k && (i != NPOS ==> k < i) ==> !SlashesAt(url, k)
    decreases |url| - from
  {
    if from + 2 <= |url| && !SlashesAt(url, from) {
      FindSlashesIsFirst(url, from + 1);
    }
  }

  /** The host begins behind the first "//", or at the second character when there is none. */
  ghost predicate HostAt(url: string, host: nat) {
    if exists k :: SlashesAt(url, k) then SlashesAt(url, host - 2) && forall k :: k < host - 2 ==> !SlashesAt(url, k)
    else host == 1
  }

  lemma HostIsFound(url: string, host: nat)
    requires |url| + 2 < NPOS && HostAt(url, host)
    ensures Wrap(FindSlashes(url, 0) + 2) == host
  {
    FindSlashesIsFirst(url, 0);
  }

  /** Any publish URL names the path from the first slash behind its host on, without that slash and one
      at its end; std::out_of_range is thrown if and only if there is no slash. */
  lemma PathBehindHost(url: string, host: nat, slash: nat)
    requires |url| + 2 < NPOS && HostAt(url, host)
    requires host <= slash && forall k :: host <= k < slash && k < |url| ==> url[k] != '/'
    ensures slash >= |url| ==> GetPathFromUrl(url) == None
    ensures slash < |url| && url[slash] == '/' ==>
      var target := url[slash + 1..];
      GetPathFromUrl(url) == Some(if target == "" then "" else Room(target))
  {
    hide FindSlashes, HostAt, Unslashed;
    HostIsFound(url, host);
    if slash < |url| && url[slash] == '/' {
      FindAfter(url, '/', host, slash);
      assert url[slash..] == "/" + url[slash + 1..];
      UnslashedTarget(url[slash + 1..]);
    }
  }
}
