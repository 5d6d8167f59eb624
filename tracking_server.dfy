/**
 * The open-tracking endpoint of `modules/tracking_server.py`: a GET on
 * `/track/<identity>` marks the identity's record in the shared tracking
 * dictionary as opened and answers with a 1x1 image; every other path is a 404.
 *
 * The clock is the parameter `now`; the HTTP plumbing (status line, headers,
 * error pages) is reduced to a status code and the body bytes.
 */
module TrackingServer {
  import opened Common
  import opened Text
  import opened BecSimulation

  const TrackPrefix := "/track/"

  /** The eight bytes every PNG file starts with. */
  const PngSignature: seq<Byte> := [0x89, 0x50, 0x4E, 0x47, 0x0D, 0x0A, 0x1A, 0x0A]

  /** The IHDR chunk of the pixel the handler writes: 1x1, 8-bit RGB, and its CRC. */
  const SourceIhdr: seq<Byte> := [
    0x00, 0x00, 0x00, 0x0D, 0x49, 0x48, 0x44, 0x52, 0x00, 0x00, 0x00, 0x01, 0x00,
    0x00, 0x00, 0x01, 0x08, 0x02, 0x00, 0x00, 0x00, 0x90, 0x77, 0x53, 0xDE]

  /** The next bytes the handler writes: an IDAT header declaring 12 bytes, and 11 bytes of data. */
  const SourceIdat: seq<Byte> := [
    0x00, 0x00, 0x00, 0x0C, 0x49, 0x44, 0x41, 0x54,
    0x08, 0xD7, 0x63, 0xF8, 0x0F, 0x04, 0x00, 0x09, 0xFB, 0x03, 0xFD]

  /** An IEND chunk: no data, and its CRC. */
  const IendChunk: seq<Byte> := [0x00, 0x00, 0x00, 0x00, 0x49, 0x45, 0x4E, 0x44, 0xAE, 0x42, 0x60, 0x82]

  /** The pixel bytes exactly as the handler writes them. */
  const SourcePixel: seq<Byte> := PngSignature + SourceIhdr + SourceIdat + IendChunk

  /** The IHDR chunk of a 1x1 8-bit RGBA image, and its CRC. */
  const TransparentIhdr: seq<Byte> := [
    0x00, 0x00, 0x00, 0x0D, 0x49, 0x48, 0x44, 0x52, 0x00, 0x00, 0x00, 0x01, 0x00,
    0x00, 0x00, 0x01, 0x08, 0x06, 0x00, 0x00, 0x00, 0x1F, 0x15, 0xC4, 0x89]

  /** An IDAT chunk holding the zlib stream of the five bytes `00 00 00 00 00` (filter byte, then RGBA all zero), and its CRC. */
  const TransparentIdat: seq<Byte> := [
    0x00, 0x00, 0x00, 0x0B, 0x49, 0x44, 0x41, 0x54,
    0x78, 0xDA, 0x63, 0x60, 0x00, 0x02, 0x00, 0x00, 0x05, 0x00, 0x01, 0xE9, 0xFA, 0xDC, 0xD8]

  /** A 1x1 RGBA image whose only pixel is fully transparent. */
  const TransparentPng: seq<Byte> := PngSignature + TransparentIhdr + TransparentIdat + IendChunk

  const IendType: seq<Byte> := [0x49, 0x45, 0x4E, 0x44]
  const IhdrType: seq<Byte> := [0x49, 0x48, 0x44, 0x52]

  /** A response: the status code and the bytes written after the headers. */
  datatype Response = Response(status: int, body: seq<Byte>)

  /** What one GET produces: the response and the tracking dictionary afterwards. */
  datatype GetResult = GetResult(response: Response, entries: map<string, TrackRecord>)

  /** `send_error(404)` and `send_error(500)`; the error page bodies are not modelled. */
  const NotFound := Response(404, [])
  const ServerError := Response(500, [])

  // ---------------------------------------------------------------------------
  // The path of the request

  /** The index of the last `c` in `s`, or -1 when there is none (`str.rfind`). */
  function LastIndexOf(s: string, c: char): (i: int)
    ensures -1 <= i < |s|
    ensures i >= 0 ==> s[i] == c
    ensures forall j :: i < j < |s| ==> s[j] != c
  {
    if s == [] then -1
    else if s[|s| - 1] == c then |s| - 1
    else LastIndexOf(s[..|s| - 1], c)
  }

  /**
   * `urlparse` splits `;params` off the last segment of the path: the path
   * ends at the first `;` after the last `/`.
   */
  function StripParams(p: string): (r: string)
    ensures r <= p
  {
    if '/' in p then
      var i := LastIndexOf(p, '/');
      p[..i] + TakeUntil(p[i..], ';')
    else TakeUntil(p, ';')
  }

  /** `urlparse(target).path` for a target in origin form: drop `#fragment`, then `?query`, then `;params`. */
  function UrlPath(target: string): (r: string)
    ensures r <= target
    ensures '?' !in r && '#' !in r
  {
    var noFragment := TakeUntil(target, '#');
    StripParams(TakeUntil(noFragment, '?'))
  }

  /** `path.split('/')[2]` is the piece between `/track/` and the next `/`. */
  function Identity(path: string): (id: string)
    requires StartsWith(path, TrackPrefix)
    ensures id == TakeUntil(path[|TrackPrefix|..], '/')
    ensures '/' !in id
  {
    TrackSplit(path);
    SplitHeadIsTakeUntil(path[|TrackPrefix|..], '/');
    Split(path, "/")[2]
  }

  /** The two assignments the handler makes to a known record. */
  function MarkOpened(r: TrackRecord, now: Timestamp): (m: TrackRecord)
    ensures m.wasOpened && m.openTime == Some(now)
    ensures m.sentTime == r.sentTime && m.replied == r.replied && m.forwarded == r.forwarded &&
            m.attachmentsOpened == r.attachmentsOpened
  {
    r.(wasOpened := true, openTime := Some(now))
  }

  /**
   * `do_GET` with the log line formatted safely and a well-formed pixel: a
   * tracking path answers 200 with the image and marks a known identity as
   * opened at `now`; any other path is a 404 and changes nothing.
   */
  function HandleGet(target: string, entries: map<string, TrackRecord>, now: Timestamp): (r: GetResult)
    ensures r.response.status == 404 <==> !StartsWith(UrlPath(target), TrackPrefix)
    ensures r.response.status == 404 ==> r.response == NotFound && r.entries == entries
    ensures r.response.status != 404 ==> r.response == Response(200, TransparentPng)
    ensures r.entries.Keys == entries.Keys
    ensures forall k :: k in entries && r.entries[k] != entries[k] ==>
      StartsWith(UrlPath(target), TrackPrefix) && k == Identity(UrlPath(target))
    ensures StartsWith(UrlPath(target), TrackPrefix) && Identity(UrlPath(target)) in entries ==>
      var id := Identity(UrlPath(target));
      r.entries[id] == MarkOpened(entries[id], now)
  {
    var path := UrlPath(target);
    if !StartsWith(path, TrackPrefix) then GetResult(NotFound, entries)
    else
      var id := Identity(path);
      var updated := if id in entries then entries[id := MarkOpened(entries[id], now)] else entries;
      GetResult(Response(200, TransparentPng), updated)
  }

  // ---------------------------------------------------------------------------
  // The handler as written

  /**
   * Whether `s % ()` raises: reading left to right, `%%` is a literal percent
   * sign and any other `%` starts a conversion that has no argument.
   */
  predicate FormatFails(s: string): (fails: bool)
    ensures fails ==> '%' in s
    decreases |s|
  {
    if s == [] then false
    else if s[0] != '%' then
      var fails := FormatFails(s[1..]);
      assert forall k :: 0 <= k < |s[1..]| ==> s[1..][k] == s[k + 1];
      fails
    else |s| < 2 || s[1] != '%' || FormatFails(s[2..])
  }

  /**
   * `do_GET` as written: the identity becomes part of the format string of
   * `log_message`, so an identity with a lone `%` raises after the record was
   * updated and the handler answers 500; on success it sends `SourcePixel`.
   */
  function HandleGetAsWritten(target: string, entries: map<string, TrackRecord>, now: Timestamp): (r: GetResult)
    ensures r.entries == HandleGet(target, entries, now).entries
    ensures r.response.status == 500 <==>
      StartsWith(UrlPath(target), TrackPrefix) && Identity(UrlPath(target)) in entries &&
      FormatFails("Email opened by " + Identity(UrlPath(target)))
    ensures r.response.status == 500 ==> r.response == ServerError
    ensures r.response.status != 500 ==> r.response.status == HandleGet(target, entries, now).response.status
    ensures r.response.status == 200 ==> r.response.body == SourcePixel
  {
    var path := UrlPath(target);
    if !StartsWith(path, TrackPrefix) then GetResult(NotFound, entries)
    else
      var id := Identity(path);
      if id in entries then
        var updated := entries[id := MarkOpened(entries[id], now)];
        if FormatFails("Email opened by " + id) then GetResult(ServerError, updated)
        else GetResult(Response(200, SourcePixel), updated)
      else GetResult(Response(200, SourcePixel), entries)
  }

  // ---------------------------------------------------------------------------
  // PNG framing

  /** A four-byte big-endian length field. */
  function BigEndian32(b: seq<Byte>, i: nat): nat
    requires i + 4 <= |b|
  {
    ((b[i] as nat * 256 + b[i + 1] as nat) * 256 + b[i + 2] as nat) * 256 + b[i + 3] as nat
  }

  /**
   * `b` is a run of chunks (length, type, data, CRC) whose declared lengths
   * fit, the last of which is IEND and ends exactly where `b` ends.
   */
  predicate Chunks(b: seq<Byte>)
    decreases |b|
  {
    |b| >= 12 &&
    var n := BigEndian32(b, 0);
    12 + n <= |b| &&
    if b[4..8] == IendType then 12 + n == |b| else Chunks(b[12 + n..])
  }

  /** The signature, then an IHDR chunk of 13 bytes, then chunks up to IEND. */
  predicate WellFramedPng(b: seq<Byte>) {
    |b| >= 33 && b[..8] == PngSignature &&
    BigEndian32(b, 8) == 13 && b[12..16] == IhdrType &&
    Chunks(b[8..])
  }

  /** Width and height from IHDR, then bit depth and colour type. */
  function Header(b: seq<Byte>): (int, int, int, int)
    requires |b| >= 33
  {
    (BigEndian32(b, 16), BigEndian32(b, 20), b[24] as int, b[25] as int)
  }

  // ---------------------------------------------------------------------------
  // The handler object

  /** `TrackingRequestHandler`, holding the dictionary shared with the BEC simulator. */
  class TrackingRequestHandler {
    const trackingData: TrackingTable

    constructor (trackingData: TrackingTable)
      ensures this.trackingData == trackingData
    {
      this.trackingData := trackingData;
    }

    /** `do_GET`: updates the shared dictionary in place as `HandleGet` says and returns its response. */
    method DoGet(target: string, now: Timestamp) returns (response: Response)
      modifies trackingData
      ensures GetResult(response, trackingData.entries) == HandleGet(target, old(trackingData.entries), now)
    {
      ghost var before := trackingData.entries;
      var path := UrlPath(target);
      if !StartsWith(path, TrackPrefix) {
        return NotFound;
      }
      var id := Identity(path);
      if id in trackingData.entries {
        trackingData.entries := trackingData.entries[id := trackingData.entries[id].(wasOpened := true)];
        trackingData.entries := trackingData.entries[id := trackingData.entries[id].(openTime := Some(now))];
        assert trackingData.entries == before[id := MarkOpened(before[id], now)];
      }
      response := Response(200, TransparentPng);
    }
  }

  // ---------------------------------------------------------------------------
  // Lemmas

  /** A tracking path splits on `/` into the empty piece, `track`, and the pieces of the rest. */
  lemma TrackSplit(path: string)
    requires StartsWith(path, TrackPrefix)
    ensures Split(path, "/") == ["", "track"] + Split(path[|TrackPrefix|..], "/")
  {
    var rest := path[|TrackPrefix|..];
    assert path == [] + ['/'] + ("track" + ['/'] + rest);
    SplitAtFirst([], '/', "track" + ['/'] + rest);
    SplitAtFirst("track", '/', rest);
  }

  /** The identity is the third `/`-piece: later pieces are ignored, and `/track/` alone names the empty identity. */
  lemma IdentityIsThirdPiece(id: string, rest: string)
    requires '/' !in id
    ensures Identity(TrackPrefix + id + "/" + rest) == id
    ensures Identity(TrackPrefix) == ""
  {
    var path := TrackPrefix + id + "/" + rest;
    assert path[|TrackPrefix|..] == id + ("/" + rest);
    TakeUntilAppend(id, "/" + rest, '/');
    assert TrackPrefix[|TrackPrefix|..] == [];
  }

  /** A query or a fragment after the path does not change which path is served. */
  lemma QueryAndFragmentIgnored(p: string, sep: char, q: string)
    requires sep == '?' || sep == '#'
    requires '?' !in p && '#' !in p
    ensures UrlPath(p + [sep] + q) == UrlPath(p)
  {
    QueryAndFragmentCut(p, sep, q);
    PlainUrlPath(p);
  }

  /** Cutting at the first `#` and then at the first `?` leaves the text before a query or fragment. */
  lemma QueryAndFragmentCut(p: string, sep: char, q: string)
    requires sep == '?' || sep == '#'
    requires '?' !in p && '#' !in p
    ensures TakeUntil(TakeUntil(p + [sep] + q, '#'), '?') == p
  {
    if sep == '#' {
      CutAt(p, '#', q);
      TakeUntilAbsent(p, '?');
    } else {
      assert p + [sep] + q == (p + [sep]) + q;
      TakeUntilAppend(p + [sep], q, '#');
      CutAt(p, '?', TakeUntil(q, '#'));
    }
  }

  /** Cutting `a + [c] + b` at the first `c` gives `a` when `a` holds no `c`. */
  lemma CutAt(a: string, c: char, b: string)
    requires c !in a
    ensures TakeUntil(a + [c] + b, c) == a
  {
    assert a + [c] + b == a + ([c] + b);
    TakeUntilAppend(a, [c] + b, c);
    assert TakeUntil([c] + b, c) == [];
  }

  /** Text without `/` after `p` leaves the last `/` where it was. */
  lemma LastSlashKept(p: string, q: string)
    requires '/' in p && '/' !in q
    ensures LastIndexOf(p + q, '/') == LastIndexOf(p, '/')
  {
    var k := LastIndexOf(p, '/');
    assert (p + q)[k] == '/';
    assert forall j :: |p| <= j < |p + q| ==> (p + q)[j] == q[j - |p|];
  }

  /**
   * Where the path is cut: it keeps the last `/`, holds no `;` after it, and
   * is the whole text or stops just before a `;`.
   */
  lemma StripParamsCut(p: string)
    ensures LastIndexOf(p, '/') < |StripParams(p)|
    ensures ';' !in StripParams(p)[LastIndexOf(p, '/') + 1..]
    ensures StripParams(p) == p || p[|StripParams(p)|] == ';'
  {
  }

  /** The path ends at the first `;` after the last `/`, wherever that is. */
  lemma StripParamsAt(t: string, n: int)
    requires LastIndexOf(t, '/') < n <= |t|
    requires ';' !in t[LastIndexOf(t, '/') + 1..n]
    requires n == |t| || t[n] == ';'
    ensures StripParams(t) == t[..n]
  {
    StripParamsCut(t);
    var r, k := StripParams(t), LastIndexOf(t, '/');
    assert r <= t && -1 <= k < |r| && ';' !in r[k + 1..] && (r == t || t[|r|] == ';');
    FirstAfterUnique(t, r, k, n);
  }

  /** Two prefixes of `t` that both run from past `k` up to the first `;` after `k` (or to the end) are equal. */
  lemma FirstAfterUnique(t: string, r: string, k: int, n: int)
    requires r <= t && -1 <= k < |r| && ';' !in r[k + 1..] && (r == t || t[|r|] == ';')
    requires k < n <= |t| && ';' !in t[k + 1..n] && (n == |t| || t[n] == ';')
    ensures r == t[..n]
  {
    assert forall j :: k + 1 <= j < |r| ==> r[j] == r[k + 1..][j - (k + 1)] != ';';
    assert forall j :: k + 1 <= j < n ==> t[j] == t[k + 1..n][j - (k + 1)] != ';';
  }

  /**
   * `;params` after the last segment are cut off: when the last segment of
   * `p` holds no `;`, the target `p;q` serves the path `p` (so `/track/a;x`
   * marks `a`).
   */
  lemma ParamsIgnored(p: string, q: string)
    requires '/' in p && '?' !in p && '#' !in p
    requires ';' !in p[LastIndexOf(p, '/') + 1..]
    requires '/' !in q && '?' !in q && '#' !in q
    ensures UrlPath(p + [';'] + q) == p
  {
    var t := p + ([';'] + q);
    assert t == p + [';'] + q;
    PlainUrlPath(t);
    LastSlashKept(p, [';'] + q);
    var k := LastIndexOf(p, '/');
    assert t[..|p|] == p;
    assert t[k + 1..|p|] == p[k + 1..];
    StripParamsAt(t, |p|);
  }

  /** A target without `?` or `#` only loses its `;params`. */
  lemma PlainUrlPath(t: string)
    requires '?' !in t && '#' !in t
    ensures UrlPath(t) == StripParams(t)
  {
    TakeUntilAbsent(t, '#');
    TakeUntilAbsent(t, '?');
  }

  /** A second hit on the same path only moves the open time: opening is idempotent. */
  lemma RepeatHits(target: string, entries: map<string, TrackRecord>, first: Timestamp, second: Timestamp)
    ensures HandleGet(target, HandleGet(target, entries, first).entries, second) == HandleGet(target, entries, second)
  {
  }

  /** The link the BEC simulator embeds for a plain address is a tracking path that names that address. */
  lemma TrackingPathParses(email: string)
    requires '/' !in email && '?' !in email && '#' !in email && ';' !in email
    ensures UrlPath(TrackingPath(email)) == TrackingPath(email)
    ensures StartsWith(TrackingPath(email), TrackPrefix) && Identity(TrackingPath(email)) == email
  {
    TrackingPathServed(email);
    TrackingPathNames(email);
  }

  /** A tracking path for a plain address has nothing for `urlparse` to cut. */
  lemma TrackingPathServed(email: string)
    requires '/' !in email && '?' !in email && '#' !in email && ';' !in email
    ensures UrlPath(TrackingPath(email)) == TrackingPath(email)
  {
    var p := TrackingPath(email);
    assert p == TrackPrefix + email;
    LastSlashKept(TrackPrefix, email);
    assert LastIndexOf(TrackPrefix, '/') == 6;
    assert p[7..] == email;
    ServedAsIs(p);
  }

  /** A target without `?` or `#` and without `;` after its last `/` is served as it is. */
  lemma ServedAsIs(t: string)
    requires '?' !in t && '#' !in t && ';' !in t[LastIndexOf(t, '/') + 1..]
    ensures UrlPath(t) == t
  {
    PlainUrlPath(t);
    NothingToStrip(t);
  }

  /** Without `;` after the last `/` there are no params to strip. */
  lemma NothingToStrip(t: string)
    requires ';' !in t[LastIndexOf(t, '/') + 1..]
    ensures StripParams(t) == t
  {
    StripParamsCut(t);
    var r, k := StripParams(t), LastIndexOf(t, '/');
    assert forall j :: k + 1 <= j < |t| ==> t[j] == t[k + 1..][j - (k + 1)] != ';';
  }

  /** The identity read from the tracking path of a plain address is that address. */
  lemma TrackingPathNames(email: string)
    requires '/' !in email
    ensures StartsWith(TrackingPath(email), TrackPrefix) && Identity(TrackingPath(email)) == email
  {
    var p := TrackingPath(email);
    assert p == TrackPrefix + email;
    assert p[|TrackPrefix|..] == email;
    TakeUntilAbsent(email, '/');
  }

  /**
   * The link the BEC simulator embeds for a recipient leads back to that
   * recipient: for an address without `/`, `?`, `#` or `;`, its tracking path
   * is served as is and names the address, whose record is marked as opened.
   */
  lemma PixelRoundTrip(email: string, entries: map<string, TrackRecord>, now: Timestamp)
    requires '/' !in email && '?' !in email && '#' !in email && ';' !in email
    ensures UrlPath(TrackingPath(email)) == TrackingPath(email)
    ensures StartsWith(TrackingPath(email), TrackPrefix) && Identity(TrackingPath(email)) == email
    ensures HandleGet(TrackingPath(email), entries, now).response == Response(200, TransparentPng)
    ensures email in entries ==>
      HandleGet(TrackingPath(email), entries, now).entries == entries[email := MarkOpened(entries[email], now)]
  {
    TrackingPathParses(email);
  }

  /**
   * A message sent by the BEC simulator and then opened: the record keeps its
   * send time and counters and now says opened at `now`.
   */
  lemma SentThenOpened(entries: map<string, TrackRecord>, email: string, sent: Timestamp, now: Timestamp)
    requires '/' !in email && '?' !in email && '#' !in email && ';' !in email
    ensures var afterSend := entries[email := FreshRecord(sent)];
      HandleGet(TrackingPath(email), afterSend, now).entries[email] == TrackRecord(sent, true, false, false, 0, Some(now))
  {
    PixelRoundTrip(email, entries[email := FreshRecord(sent)], now);
  }

  /** A `%` followed by anything but `%`, after text with no `%`, makes the formatting raise. */
  lemma {:induction false} LonePercentFails(a: string, c: char, b: string)
    requires '%' !in a && c != '%'
    ensures FormatFails(a + ['%', c] + b)
    decreases |a|
  {
    var s := a + ['%', c] + b;
    if a == [] {
      assert s[0] == '%' && s[1] == c;
    } else {
      assert s[0] == a[0] && a[0] in a;
      assert s[1..] == a[1..] + ['%', c] + b;
      LonePercentFails(a[1..], c, b);
    }
  }

  /** The log line of an identity with a lone `%` cannot be formatted. */
  lemma LonePercentLogFails(email: string, a: string, c: char, b: string)
    requires email == a + ['%', c] + b && '%' !in a && c != '%'
    ensures FormatFails("Email opened by " + email)
  {
    var prefix := "Email opened by ";
    assert '%' !in prefix + a;
    LonePercentFails(prefix + a, c, b);
    assert prefix + a + ['%', c] + b == prefix + email;
  }

  /** As written and corrected agree on every dictionary update and, for identities without `%`, on the status. */
  lemma AsWrittenAgreesWithoutPercent(target: string, entries: map<string, TrackRecord>, now: Timestamp)
    requires StartsWith(UrlPath(target), TrackPrefix) ==> '%' !in Identity(UrlPath(target))
    ensures HandleGetAsWritten(target, entries, now).entries == HandleGet(target, entries, now).entries
    ensures HandleGetAsWritten(target, entries, now).response.status == HandleGet(target, entries, now).response.status
  {
    var path := UrlPath(target);
    if StartsWith(path, TrackPrefix) {
      var s := "Email opened by " + Identity(path);
      assert '%' !in "Email opened by ";
      assert forall k :: 0 <= k < |s| ==> s[k] == '%' ==> k >= 16 && s[k] == Identity(path)[k - 16];
    }
  }

  /**
   * A known recipient address with a lone `%` (such as `a%b`): as written, the
   * record is marked but the answer is a 500 instead of the pixel.
   */
  lemma LonePercentIdentityAsWritten(email: string, a: string, c: char, b: string, entries: map<string, TrackRecord>, now: Timestamp)
    requires email == a + ['%', c] + b && '%' !in a && c != '%'
    requires '/' !in email && '?' !in email && '#' !in email && ';' !in email && email in entries
    ensures HandleGetAsWritten(TrackingPath(email), entries, now).response == ServerError
    ensures HandleGetAsWritten(TrackingPath(email), entries, now).entries[email].wasOpened
    ensures HandleGet(TrackingPath(email), entries, now).response == Response(200, TransparentPng)
  {
    PixelRoundTrip(email, entries, now);
    LonePercentLogFails(email, a, c, b);
  }

  /** Bytes read from a prefix are the same when more bytes follow. */
  lemma BigEndianOfPrefix(c: seq<Byte>, rest: seq<Byte>, i: nat)
    requires i + 4 <= |c|
    ensures BigEndian32(c + rest, i) == BigEndian32(c, i)
  {
    assert (c + rest)[i..i + 4] == c[i..i + 4];
    assert forall k :: i <= k < i + 4 ==> (c + rest)[k] == c[k];
  }

  /** A complete chunk other than IEND at the front is skipped over. */
  lemma ChunkThenRest(c: seq<Byte>, rest: seq<Byte>)
    requires |c| >= 12 && |c| == 12 + BigEndian32(c, 0) && c[4..8] != IendType
    ensures Chunks(c + rest) <==> Chunks(rest)
  {
    BigEndianOfPrefix(c, rest, 0);
    assert (c + rest)[4..8] == c[4..8];
    assert (c + rest)[|c|..] == rest;
  }

  /** A first chunk that is not IEND and leaves fewer than 12 bytes after it cannot be followed by IEND. */
  lemma ShortTail(c: seq<Byte>)
    requires |c| >= 12 && c[4..8] != IendType
    requires 12 + BigEndian32(c, 0) <= |c| < 24 + BigEndian32(c, 0)
    ensures !Chunks(c)
  {
    assert |c[12 + BigEndian32(c, 0)..]| < 12;
  }

  /** An image assembled from the signature and three parts: where each part starts. */
  lemma PartsLayout(ihdr: seq<Byte>, data: seq<Byte>, end: seq<Byte>)
    ensures (PngSignature + ihdr + data + end)[..8] == PngSignature
    ensures (PngSignature + ihdr + data + end)[8..] == ihdr + (data + end)
  {
    assert PngSignature + ihdr + data + end == PngSignature + (ihdr + (data + end));
  }

  /** The bytes the handler sends are not a PNG: the IDAT chunk claims 12 bytes, so IEND is cut short. */
  lemma SourcePixelMisframed()
    ensures |SourcePixel| == 64 && SourcePixel[..8] == PngSignature
    ensures BigEndian32(SourceIdat, 0) == 12 && |SourceIdat| == 19 && SourceIdat[4..8] != IendType
    ensures !WellFramedPng(SourcePixel)
  {
    PartsLayout(SourceIhdr, SourceIdat, IendChunk);
    var tail := SourceIdat + IendChunk;
    assert SourceIdat[5] != IendType[1];
    BigEndianOfPrefix(SourceIdat, IendChunk, 0);
    assert tail[4..8] == SourceIdat[4..8];
    ShortTail(tail);
    assert SourceIhdr[5] != IendType[1];
    ChunkThenRest(SourceIhdr, tail);
  }

  /** The chunks of the corrected pixel: IHDR, IDAT and IEND, each with a length that fits. */
  lemma TransparentChunks()
    ensures Chunks(TransparentIhdr + (TransparentIdat + IendChunk))
  {
    assert TransparentIhdr[5] != IendType[1] && TransparentIdat[5] != IendType[1];
    ChunkThenRest(TransparentIhdr, TransparentIdat + IendChunk);
    ChunkThenRest(TransparentIdat, IendChunk);
    assert IendChunk[4..8] == IendType;
  }

  /** Bytes read after a prefix are read from what follows it. */
  lemma BigEndianAfter(pre: seq<Byte>, c: seq<Byte>, i: nat)
    requires i + 4 <= |c|
    ensures BigEndian32(pre + c, |pre| + i) == BigEndian32(c, i)
  {
    assert forall k :: i <= k < i + 4 ==> (pre + c)[|pre| + k] == c[k];
  }

  /** The corrected pixel is the signature followed by its three chunks. */
  lemma TransparentPngLayout()
    ensures TransparentPng[..8] == PngSignature
    ensures TransparentPng[8..] == TransparentIhdr + (TransparentIdat + IendChunk)
  {
    assert TransparentPng == PngSignature + (TransparentIhdr + (TransparentIdat + IendChunk));
  }

  /** The signature, a 13-byte IHDR chunk, one more chunk and IEND make a well-framed PNG. */
  lemma WellFramedFromParts(ihdr: seq<Byte>, data: seq<Byte>, end: seq<Byte>)
    requires |ihdr| == 25 && BigEndian32(ihdr, 0) == 13 && ihdr[4..8] == IhdrType
    requires Chunks(ihdr + (data + end))
    ensures WellFramedPng(PngSignature + ihdr + data + end)
  {
    var b := PngSignature + ihdr + data + end;
    assert b == PngSignature + (ihdr + (data + end));
    BigEndianAfter(PngSignature, ihdr + (data + end), 0);
    BigEndianOfPrefix(ihdr, data + end, 0);
    assert b[12..16] == ihdr[4..8];
    assert b[8..] == ihdr + (data + end);
  }

  /** The corrected pixel is a well-framed PNG. */
  lemma TransparentPngWellFramed()
    ensures WellFramedPng(TransparentPng)
  {
    TransparentChunks();
    TransparentIhdrFields();
    WellFramedFromParts(TransparentIhdr, TransparentIdat, IendChunk);
  }

  /** The corrected IHDR chunk is 25 bytes long, declares 13 data bytes and has type IHDR. */
  lemma TransparentIhdrFields()
    ensures |TransparentIhdr| == 25 && BigEndian32(TransparentIhdr, 0) == 13 && TransparentIhdr[4..8] == IhdrType
  {
  }

  /** The header of an image assembled from the signature, a 25-byte IHDR chunk and more: read from the IHDR data. */
  lemma HeaderFromParts(ihdr: seq<Byte>, data: seq<Byte>, end: seq<Byte>)
    requires |ihdr| == 25
    ensures |PngSignature + ihdr + data + end| >= 33
    ensures Header(PngSignature + ihdr + data + end) ==
      (BigEndian32(ihdr, 8), BigEndian32(ihdr, 12), ihdr[16] as int, ihdr[17] as int)
  {
    var rest := data + end;
    var b := PngSignature + ihdr + data + end;
    assert b == PngSignature + (ihdr + rest);
    BigEndianAfter(PngSignature, ihdr + rest, 8);
    BigEndianOfPrefix(ihdr, rest, 8);
    BigEndianAfter(PngSignature, ihdr + rest, 12);
    BigEndianOfPrefix(ihdr, rest, 12);
    assert b[24] == ihdr[16] && b[25] == ihdr[17];
  }

  /** The corrected pixel's header: width 1, height 1, bit depth 8, colour type 6 (RGBA). */
  lemma TransparentPngHeader()
    ensures Header(TransparentPng) == (1, 1, 8, 6)
  {
    HeaderFromParts(TransparentIhdr, TransparentIdat, IendChunk);
  }
}
