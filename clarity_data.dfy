/** The Clarity time-series script (main/breathe_london_api_clarity_data.py):
    for every (site, species) pair, build the getClarityData URL, make one
    request, skip the pair when it fails, tag every row it returns with the
    species and with `mod_datetime` one hour after its `DateTime`, and
    concatenate the tables in the order the pairs were visited.

    The server is an input: a function from the requested URL to its reply.
    Timestamps are whole seconds; the text rendering of the window's ends
    (`strftime`) is an input too. */
module ClarityData {
  import opened Common

  const ClarityUrlBase := "https://api.breathelondon.org/api/getClarityData/"

  /** `pd.Timedelta(hours=1)` in seconds. */
  const OneHour := 3600

  /** `timedelta(days=1)` in seconds. */
  const SecondsPerDay := 86400

  // ------------------------------------------------------- space encoding

  /** Number of spaces in `s`. */
  function Spaces(s: string): nat {
    if s == [] then 0 else (if s[0] == ' ' then 1 else 0) + Spaces(s[1..])
  }

  /** `s.replace(" ", "%20")`: every space becomes `%20`. The result holds no
      space, and only the characters of `s` and of `%20`. */
  function EncodeSpaces(s: string): (r: string)
    ensures ' ' !in r
    ensures |r| == |s| + 2 * Spaces(s)
    ensures forall c :: c in r ==> c in s || c in "%20"
  {
    if s == [] then []
    else (if s[0] == ' ' then "%20" else [s[0]]) + EncodeSpaces(s[1..])
  }

  /** Reading `%20` back as a space, left to right. */
  function DecodeSpaces(s: string): string
  {
    if s == [] then []
    else if |s| >= 3 && s[..3] == "%20" then " " + DecodeSpaces(s[3..])
    else [s[0]] + DecodeSpaces(s[1..])
  }

  /** The encoding loses nothing for text without `%`, the timestamps
      rendered by `"%a %d %b %Y %H:%M:%S"` among them: every space comes
      back and every other character is left where it was. */
  lemma {:induction false} DecodeEncodeSpaces(s: string)
    requires '%' !in s
    ensures DecodeSpaces(EncodeSpaces(s)) == s
  {
    if s != [] {
      DecodeEncodeSpaces(s[1..]);
      var rest := EncodeSpaces(s[1..]);
      if s[0] == ' ' {
        assert EncodeSpaces(s) == "%20" + rest;
        assert ("%20" + rest)[..3] == "%20" && ("%20" + rest)[3..] == rest;
      } else {
        assert EncodeSpaces(s) == [s[0]] + rest;
        assert ([s[0]] + rest)[1..] == rest;
      }
    }
  }

  /** Text without spaces is left as it is. */
  lemma {:induction false} EncodeSpacesIdentity(s: string)
    requires ' ' !in s
    ensures EncodeSpaces(s) == s
  {
    if s != [] {
      EncodeSpacesIdentity(s[1..]);
    }
  }

  // ------------------------------------------------------------ the URL

  /** How `str.format` renders the module-level `API_KEY`: an unset variable
      is Python's `None`, written as the text `None`. */
  function KeyText(apiKey: Option<string>): string {
    if apiKey.None? then "None" else apiKey.value
  }

  /** Segments joined with `/`. */
  function JoinPath(segments: seq<string>): string
    requires |segments| >= 1
  {
    if |segments| == 1 then segments[0] else segments[0] + "/" + JoinPath(segments[1..])
  }

  /** The request URL of get_clarity_data: the template filled in with the
      site code, species, both encoded times and the averaging period as
      path segments, and the key as the query. */
  function ClarityUrl(siteCode: string, species: string, startTime: string, endTime: string,
                      averaging: string, apiKey: Option<string>): string
  {
    ClarityUrlBase
      + JoinPath([siteCode, species, EncodeSpaces(startTime), EncodeSpaces(endTime), averaging])
      + "?key=" + KeyText(apiKey)
  }

  /** The URL starts with the getClarityData base and ends with the key
      query; the times are encoded, so only the site code, species,
      averaging period or key can put a space after the base. */
  lemma ClarityUrlShape(siteCode: string, species: string, startTime: string, endTime: string,
                        averaging: string, apiKey: Option<string>)
    ensures var url := ClarityUrl(siteCode, species, startTime, endTime, averaging, apiKey);
            |ClarityUrlBase| <= |url| && url[..|ClarityUrlBase|] == ClarityUrlBase
    ensures var url := ClarityUrl(siteCode, species, startTime, endTime, averaging, apiKey);
            var query := "?key=" + KeyText(apiKey);
            |query| <= |url| && url[|url| - |query|..] == query
    ensures var url := ClarityUrl(siteCode, species, startTime, endTime, averaging, apiKey);
            ' ' !in siteCode + species + averaging + KeyText(apiKey) ==> ' ' !in url[|ClarityUrlBase|..]
  {
    var segments := [siteCode, species, EncodeSpaces(startTime), EncodeSpaces(endTime), averaging];
    var url := ClarityUrl(siteCode, species, startTime, endTime, averaging, apiKey);
    var query := "?key=" + KeyText(apiKey);
    assert url == ClarityUrlBase + JoinPath(segments) + query;
    if ' ' !in siteCode + species + averaging + KeyText(apiKey) {
      assert forall c :: c in siteCode || c in species || c in averaging || c in KeyText(apiKey) ==>
                c in siteCode + species + averaging + KeyText(apiKey);
      assert forall k :: 0 <= k < 5 ==> ' ' !in segments[k];
      JoinPathChars(segments, ' ');
      assert ' ' !in query;
      assert url[|ClarityUrlBase|..] == JoinPath(segments) + query;
    }
  }

  /** The parts a server reads from a getClarityData URL. */
  datatype UrlParts = UrlParts(siteCode: string, species: string, startTime: string, endTime: string,
                               averaging: string, key: string)

  /** Index of the first `c` in `s`, or `|s|` when there is none. */
  function FirstIndex(s: string, c: char): (i: nat)
    ensures i <= |s|
    ensures forall j :: 0 <= j < i ==> s[j] != c
    ensures i < |s| ==> s[i] == c
  {
    if s == [] || s[0] == c then 0 else 1 + FirstIndex(s[1..], c)
  }

  lemma FirstIndexAfter(a: string, c: char, b: string)
    requires c !in a
    ensures FirstIndex(a + [c] + b, c) == |a|
  {
    var s := a + [c] + b;
    var i := FirstIndex(s, c);
    assert s[|a|] == c;
  }

  /** `s.split(sep)`. */
  function Split(s: string, sep: char): (parts: seq<string>)
    ensures |parts| >= 1
  {
    if s == [] then [""]
    else
      var rest := Split(s[1..], sep);
      if s[0] == sep then [""] + rest else [[s[0]] + rest[0]] + rest[1..]
  }

  lemma {:induction false} SplitWhole(a: string, sep: char)
    requires sep !in a
    ensures Split(a, sep) == [a]
  {
    if a != [] {
      SplitWhole(a[1..], sep);
      assert [a[0]] + a[1..] == a;
    }
  }

  lemma {:induction false} SplitFirst(a: string, sep: char, b: string)
    requires sep !in a
    ensures Split(a + [sep] + b, sep) == [a] + Split(b, sep)
  {
    var s := a + [sep] + b;
    if a == [] {
      assert s[0] == sep && s[1..] == b;
    } else {
      assert s[0] == a[0] && s[1..] == a[1..] + [sep] + b;
      SplitFirst(a[1..], sep, b);
      assert [a[0]] + a[1..] == a;
    }
  }

  /** Splitting at `/` undoes joining with `/` when no segment holds one. */
  lemma {:induction false} SplitJoinPath(segments: seq<string>)
    requires |segments| >= 1
    requires forall k :: 0 <= k < |segments| ==> '/' !in segments[k]
    ensures Split(JoinPath(segments), '/') == segments
  {
    if |segments| == 1 {
      SplitWhole(segments[0], '/');
    } else {
      SplitJoinPath(segments[1..]);
      assert "/" == ['/'];
      SplitFirst(segments[0], '/', JoinPath(segments[1..]));
      assert [segments[0]] + segments[1..] == segments;
    }
  }

  lemma {:induction false} JoinPathChars(segments: seq<string>, c: char)
    requires |segments| >= 1
    requires c != '/' && forall k :: 0 <= k < |segments| ==> c !in segments[k]
    ensures c !in JoinPath(segments)
  {
    if |segments| > 1 {
      JoinPathChars(segments[1..], c);
    }
  }

  /** How a server splits a getClarityData URL: the path after the base is
      split at `/` up to the first `?`, and the query must be `key=...`. */
  function ParseClarityUrl(url: string): Option<UrlParts>
  {
    if |url| < |ClarityUrlBase| || url[..|ClarityUrlBase|] != ClarityUrlBase then None
    else
      var rest := url[|ClarityUrlBase|..];
      var q := FirstIndex(rest, '?');
      if q == |rest| then None
      else
        var segments := Split(rest[..q], '/');
        var query := rest[q + 1..];
        if |segments| != 5 || |query| < 4 || query[..4] != "key=" then None
        else Some(UrlParts(segments[0], segments[1], segments[2], segments[3], segments[4], query[4..]))
  }

  /** A segment free of the URL's separators. */
  predicate PlainSegment(s: string) {
    '/' !in s && '?' !in s
  }

  /** Reading a URL built from the base, a path without `?` and a key. */
  lemma ParseClarityUrlOf(path: string, key: string)
    requires '?' !in path
    ensures var segments := Split(path, '/');
            ParseClarityUrl(ClarityUrlBase + path + "?key=" + key)
              == if |segments| == 5
                 then Some(UrlParts(segments[0], segments[1], segments[2], segments[3], segments[4], key))
                 else None
  {
    var query := "key=" + key;
    var rest := path + ['?'] + query;
    var url := ClarityUrlBase + path + "?key=" + key;
    assert url == ClarityUrlBase + rest;
    assert url[..|ClarityUrlBase|] == ClarityUrlBase;
    assert url[|ClarityUrlBase|..] == rest;
    FirstIndexAfter(path, '?', query);
    assert rest[..|path|] == path;
    assert rest[|path| + 1..] == query;
    assert query[..4] == "key=" && query[4..] == key;
  }

  /** The URL puts site code, species, start, end and averaging in that
      order in the path, the encoded times in place of the times, and the
      key as the `key` query parameter: a server reading the URL gets all of
      them back, provided none of them holds a `/` or a `?` (nothing is
      percent-encoded but spaces). */
  lemma ClarityUrlRoundTrip(siteCode: string, species: string, startTime: string, endTime: string,
                            averaging: string, apiKey: Option<string>)
    requires PlainSegment(siteCode) && PlainSegment(species) && PlainSegment(averaging)
    requires PlainSegment(startTime) && PlainSegment(endTime)
    ensures ParseClarityUrl(ClarityUrl(siteCode, species, startTime, endTime, averaging, apiKey))
         == Some(UrlParts(siteCode, species, EncodeSpaces(startTime), EncodeSpaces(endTime), averaging, KeyText(apiKey)))
  {
    var segments := [siteCode, species, EncodeSpaces(startTime), EncodeSpaces(endTime), averaging];
    assert forall k :: 0 <= k < 5 ==> PlainSegment(segments[k]) by {
      assert '/' !in "%20" && '?' !in "%20";
    }
    JoinPathChars(segments, '?');
    SplitJoinPath(segments);
    ParseClarityUrlOf(JoinPath(segments), KeyText(apiKey));
  }

  // ------------------------------------------------------- one request

  /** One JSON field of a record: the record lacks it, it is `null`, or it
      holds a value. */
  datatype Cell<T> = Missing | Null | Value(value: T)

  /** A measurement as the API returns it: its `DateTime` field in seconds,
      and its other fields, `None` for a `null` (a field the record lacks is
      not in the map). `DateTime` lives only in `dateTime`: it is never a
      key of `fields`, so a record has one `DateTime` as a pandas row does. */
  datatype Measurement = Measurement(dateTime: Cell<int>, fields: map<string, Option<string>>)

  /** What `requests.get` gives back: a status and, for a parsed JSON body,
      its records; `Raised` stands for any exception on the way (no
      connection, a body that is not JSON, a table pandas cannot build). */
  datatype Reply = Response(status: int, body: seq<Measurement>) | Raised

  /** get_clarity_data: the records of a 200 reply to the pair's URL; any
      other status and any exception give `None` instead of raising. */
  function GetClarityData(siteCode: string, species: string, startTime: string, endTime: string,
                          averaging: string, apiKey: Option<string>, server: string -> Reply): (r: Option<seq<Measurement>>)
    ensures var reply := server(ClarityUrl(siteCode, species, startTime, endTime, averaging, apiKey));
            (r.Some? <==> reply.Response? && reply.status == 200) &&
            (r.Some? ==> r.value == reply.body)
  {
    match server(ClarityUrl(siteCode, species, startTime, endTime, averaging, apiKey))
    case Response(status, body) => if status == 200 then Some(body) else None
    case Raised => None
  }

  // ------------------------------------------------------ tagging rows

  /** A combined-table row: the measurement with its `mod_datetime` and
      `species` columns. */
  datatype Row = Row(measurement: Measurement, modDateTime: Option<int>, species: string)

  /** `DateTime + 1 hour`; a `null` or absent time is NaT in pandas and
      stays NaT (`None`). */
  function ShiftHour(t: Cell<int>): Option<int> {
    if t.Value? then Some(t.value + OneHour) else None
  }

  function Tag(m: Measurement, species: string): Row {
    Row(m, ShiftHour(m.dateTime), species)
  }

  /** The pair's table with the two derived columns set on every row. */
  function TagFrame(body: seq<Measurement>, species: string): (frame: seq<Row>)
    ensures |frame| == |body|
    ensures forall k :: 0 <= k < |body| ==>
              frame[k].measurement == body[k] && frame[k].species == species &&
              (frame[k].modDateTime.Some? <==> body[k].dateTime.Value?) &&
              (body[k].dateTime.Value? ==> frame[k].modDateTime.value == body[k].dateTime.value + 3600)
  {
    seq(|body|, k requires 0 <= k < |body| => Tag(body[k], species))
  }

  /** pandas has a `DateTime` column exactly when some record has that
      field, even as `null`; `data['DateTime']` raises KeyError otherwise,
      an empty reply included. */
  predicate HasDateTimeColumn(body: seq<Measurement>) {
    exists k :: 0 <= k < |body| && !body[k].dateTime.Missing?
  }

  // -------------------------------------------------- the pair loop

  datatype Pair = Pair(siteCode: string, species: string)

  /** The pairs of one site, in species order. */
  function SitePairs(siteCode: string, species: seq<string>): (ps: seq<Pair>)
    ensures |ps| == |species|
  {
    seq(|species|, k requires 0 <= k < |species| => Pair(siteCode, species[k]))
  }

  /** The pairs the nested loop visits: sites in the outer loop, species in
      the inner one. */
  function Pairs(siteCodes: seq<string>, species: seq<string>): seq<Pair>
  {
    if siteCodes == [] then []
    else Pairs(siteCodes[..|siteCodes| - 1], species) + SitePairs(siteCodes[|siteCodes| - 1], species)
  }

  lemma {:induction false} PairsAppend(a: seq<string>, b: seq<string>, species: seq<string>)
    ensures Pairs(a + b, species) == Pairs(a, species) + Pairs(b, species)
    decreases |b|
  {
    if b == [] {
      assert a + b == a;
    } else {
      var b', last := b[..|b| - 1], b[|b| - 1];
      assert (a + b)[..|a + b| - 1] == a + b';
      assert (a + b)[|a + b| - 1] == last;
      assert Pairs(a + b, species) == Pairs(a + b', species) + SitePairs(last, species);
      assert Pairs(b, species) == Pairs(b', species) + SitePairs(last, species);
      PairsAppend(a, b', species);
    }
  }

  lemma {:induction false} PairsLength(siteCodes: seq<string>, species: seq<string>)
    ensures |Pairs(siteCodes, species)| == |siteCodes| * |species|
  {
    if siteCodes != [] {
      var n, m := |siteCodes|, |species|;
      PairsLength(siteCodes[..n - 1], species);
      assert (n - 1) * m + m == n * m;
    }
  }

  /** Visiting order is site-major: pair `(i, j)` is visited at position
      `i * |species| + j`. */
  lemma {:induction false} PairsAt(siteCodes: seq<string>, species: seq<string>, i: nat, j: nat)
    requires i < |siteCodes| && j < |species|
    ensures i * |species| + j < |Pairs(siteCodes, species)|
    ensures Pairs(siteCodes, species)[i * |species| + j] == Pair(siteCodes[i], species[j])
    decreases |siteCodes|
  {
    var n, m := |siteCodes|, |species|;
    var init := siteCodes[..n - 1];
    PairsLength(siteCodes, species);
    PairsLength(init, species);
    if i == n - 1 {
      assert Pairs(siteCodes, species)[i * m + j] == SitePairs(siteCodes[n - 1], species)[j];
    } else {
      assert (n - 1) * m == (i + 1) * m + (n - 2 - i) * m;
      PairsAt(init, species, i, j);
    }
  }

  /** What main knows while it loops: the request's fixed parts and the server. */
  datatype Query = Query(averaging: string, startText: string, endText: string,
                         apiKey: Option<string>, server: string -> Reply)

  function Fetched(q: Query, p: Pair): Option<seq<Measurement>> {
    GetClarityData(p.siteCode, p.species, q.startText, q.endText, q.averaging, q.apiKey, q.server)
  }

  /** One turn of the inner loop: pair `p`'s table is added to the tables
      collected so far when its request succeeds, nothing is added when it
      fails, and a 200 reply without a `DateTime` column raises KeyError. */
  function Visit(q: Query, before: Option<seq<seq<Row>>>, p: Pair): Option<seq<seq<Row>>>
  {
    if before.None? then None
    else match Fetched(q, p)
      case None => before
      case Some(body) =>
        if HasDateTimeColumn(body) then Some(before.value + [TagFrame(body, p.species)]) else None
  }

  /** The tables `df_list` holds after visiting `pairs`, or `None` once
      KeyError has been raised. */
  function PairFrames(q: Query, pairs: seq<Pair>): Option<seq<seq<Row>>>
  {
    if pairs == [] then Some([])
    else Visit(q, PairFrames(q, pairs[..|pairs| - 1]), pairs[|pairs| - 1])
  }

  /** A 200 reply whose table has no `DateTime` column: `data['DateTime']`
      raises KeyError. */
  predicate Raises(q: Query, p: Pair) {
    Fetched(q, p).Some? && !HasDateTimeColumn(Fetched(q, p).value)
  }

  /** How many of `pairs` get a 200 reply. */
  function SucceededCount(q: Query, pairs: seq<Pair>): nat
  {
    if pairs == [] then 0
    else SucceededCount(q, pairs[..|pairs| - 1]) + (if Fetched(q, pairs[|pairs| - 1]).Some? then 1 else 0)
  }

  /** The loop raises KeyError exactly when some visited pair's 200 reply
      has no `DateTime` column; otherwise `df_list` holds one table per
      pair whose request succeeded, and never more tables than pairs. */
  lemma {:induction false} PairFramesRaises(q: Query, pairs: seq<Pair>)
    ensures PairFrames(q, pairs).None? <==> exists k :: 0 <= k < |pairs| && Raises(q, pairs[k])
    ensures PairFrames(q, pairs).Some? ==> |PairFrames(q, pairs).value| == SucceededCount(q, pairs) <= |pairs|
  {
    if pairs != [] {
      var init, last := pairs[..|pairs| - 1], pairs[|pairs| - 1];
      PairFramesRaises(q, init);
      if exists k :: 0 <= k < |init| && Raises(q, init[k]) {
        var k :| 0 <= k < |init| && Raises(q, init[k]);
        assert pairs[k] == init[k];
      }
      if exists k :: 0 <= k < |pairs| && Raises(q, pairs[k]) {
        var k :| 0 <= k < |pairs| && Raises(q, pairs[k]);
        if k < |init| {
          assert init[k] == pairs[k];
        }
      }
    }
  }

  lemma PairFramesSnoc(q: Query, pairs: seq<Pair>, p: Pair)
    ensures PairFrames(q, pairs + [p]) == Visit(q, PairFrames(q, pairs), p)
  {
    assert (pairs + [p])[..|pairs|] == pairs;
  }

  /** Pairs are independent: the tables of `a + b` are those of `a`
      followed by those of `b`, and a KeyError in either stops everything. */
  lemma {:induction false} PairFramesAppend(q: Query, a: seq<Pair>, b: seq<Pair>)
    ensures PairFrames(q, a + b) ==
              if PairFrames(q, a).None? || PairFrames(q, b).None? then None
              else Some(PairFrames(q, a).value + PairFrames(q, b).value)
    decreases |b|
  {
    if b == [] {
      assert a + b == a;
      if PairFrames(q, a).Some? {
        assert PairFrames(q, a).value + [] == PairFrames(q, a).value;
      }
    } else {
      var b', p := b[..|b| - 1], b[|b| - 1];
      assert (a + b)[..|a + b| - 1] == a + b';
      assert (a + b)[|a + b| - 1] == p;
      assert PairFrames(q, a + b) == Visit(q, PairFrames(q, a + b'), p);
      assert PairFrames(q, b) == Visit(q, PairFrames(q, b'), p);
      PairFramesAppend(q, a, b');
      var A, B := PairFrames(q, a), PairFrames(q, b');
      if A.Some? && B.Some? && Fetched(q, p).Some? && HasDateTimeColumn(Fetched(q, p).value) {
        var tf := TagFrame(Fetched(q, p).value, p.species);
        assert A.value + B.value + [tf] == A.value + (B.value + [tf]);
      }
    }
  }

  /** A pair whose request fails contributes no table, and the pairs after
      it are visited as if it were not there. */
  lemma FailedPairSkipped(q: Query, a: seq<Pair>, p: Pair, b: seq<Pair>)
    requires Fetched(q, p).None?
    ensures PairFrames(q, a + [p] + b) == PairFrames(q, a + b)
  {
    assert PairFrames(q, [p]) == Some([]) by {
      assert [p][..0] == [];
    }
    PairFramesAppend(q, a, [p]);
    PairFramesAppend(q, a + [p], b);
    PairFramesAppend(q, a, b);
  }

  /** When every request fails, no table is collected. */
  lemma {:induction false} AllPairsFail(q: Query, pairs: seq<Pair>)
    requires forall k :: 0 <= k < |pairs| ==> Fetched(q, pairs[k]).None?
    ensures PairFrames(q, pairs) == Some([])
  {
    if pairs != [] {
      AllPairsFail(q, pairs[..|pairs| - 1]);
    }
  }

  /** With one pair that succeeds and one that fails, in either order, the
      result is the successful pair's rows alone, tagged with its species. */
  lemma OneGoodOneFailing(q: Query, good: Pair, bad: Pair)
    requires Fetched(q, good).Some? && HasDateTimeColumn(Fetched(q, good).value)
    requires Fetched(q, bad).None?
    ensures PairFrames(q, [good, bad]) == Some([TagFrame(Fetched(q, good).value, good.species)])
    ensures PairFrames(q, [bad, good]) == Some([TagFrame(Fetched(q, good).value, good.species)])
  {
    var tf := TagFrame(Fetched(q, good).value, good.species);
    assert PairFrames(q, [good]) == Some([tf]) by {
      assert [good][..0] == [];
      assert PairFrames(q, [good]) == Visit(q, Some([]), good);
      assert [] + [tf] == [tf];
    }
    FailedPairSkipped(q, [good], bad, []);
    FailedPairSkipped(q, [], bad, [good]);
    assert [good] + [bad] + [] == [good, bad];
    assert [] + [bad] + [good] == [bad, good];
  }

  /** Row `row` comes from pair `p`: one of the records of p's successful
      reply, tagged with p's species and shifted by one hour. */
  predicate Yields(q: Query, p: Pair, row: Row) {
    Fetched(q, p).Some? && row.measurement in Fetched(q, p).value && row == Tag(row.measurement, p.species)
  }

  lemma TagFrameMember(body: seq<Measurement>, species: string, row: Row)
    ensures row in TagFrame(body, species) <==> row.measurement in body && row == Tag(row.measurement, species)
  {
    if row.measurement in body && row == Tag(row.measurement, species) {
      var k :| 0 <= k < |body| && body[k] == row.measurement;
      assert TagFrame(body, species)[k] == row;
    }
  }

  /** Every collected table is non-empty, so `df_list` is empty exactly when
      no rows were collected. */
  lemma {:induction false} FramesNonEmpty(q: Query, pairs: seq<Pair>)
    requires PairFrames(q, pairs).Some?
    ensures forall f :: f in PairFrames(q, pairs).value ==> f != []
  {
    if pairs != [] {
      FramesNonEmpty(q, pairs[..|pairs| - 1]);
    }
  }

  /** The rows pair `p` adds to the combined table when no KeyError is raised. */
  function PairRows(q: Query, p: Pair): seq<Row> {
    if Fetched(q, p).None? then [] else TagFrame(Fetched(q, p).value, p.species)
  }

  lemma PairFramesRowsSnoc(q: Query, pairs: seq<Pair>)
    requires pairs != [] && PairFrames(q, pairs).Some?
    ensures PairFrames(q, pairs[..|pairs| - 1]).Some?
    ensures Flatten(PairFrames(q, pairs).value)
         == Flatten(PairFrames(q, pairs[..|pairs| - 1]).value) + PairRows(q, pairs[|pairs| - 1])
  {
    var p := pairs[|pairs| - 1];
    var before := PairFrames(q, pairs[..|pairs| - 1]).value;
    if Fetched(q, p).Some? {
      var tail := PairRows(q, p);
      FlattenAppend(before, [tail]);
      assert Flatten([tail]) == tail + Flatten([tail][1..]);
    }
  }

  /** The combined table holds exactly the tagged records of the successful
      pairs: every row carries its pair's species and `DateTime + 1 h`, and
      no record of a successful pair is lost. */
  lemma {:induction false} CombinedRows(q: Query, pairs: seq<Pair>, row: Row)
    requires PairFrames(q, pairs).Some?
    ensures row in Flatten(PairFrames(q, pairs).value) <==>
              exists k :: 0 <= k < |pairs| && Yields(q, pairs[k], row)
  {
    if pairs != [] {
      var init := pairs[..|pairs| - 1];
      var p := pairs[|pairs| - 1];
      PairFramesRowsSnoc(q, pairs);
      CombinedRows(q, init, row);
      assert row in PairRows(q, p) <==> Yields(q, p, row) by {
        if Fetched(q, p).Some? {
          TagFrameMember(Fetched(q, p).value, p.species, row);
        }
      }
      if exists k :: 0 <= k < |init| && Yields(q, init[k], row) {
        var k :| 0 <= k < |init| && Yields(q, init[k], row);
        assert pairs[k] == init[k];
      }
      if exists k :: 0 <= k < |pairs| && Yields(q, pairs[k], row) {
        var k :| 0 <= k < |pairs| && Yields(q, pairs[k], row);
        if k < |init| {
          assert init[k] == pairs[k];
        }
      }
    }
  }

  // ----------------------------------------------------------------- main

  datatype ClarityResult =
    | Combined(rows: seq<Row>)  // the combined DataFrame
    | NoData                    // `None`: every pair failed
    | Crashed                   // uncaught KeyError on `DateTime`, or AttributeError on `SiteCode`

    /** The output file: the given name unless it `is None`. */
  function OutputName(outputFile: Option<string>, generatedName: string): string {
    if outputFile.None? then generatedName else outputFile.value
  }

  /** The combined table has a `SiteCode` column exactly when some row's
      record has that field; `df_all.SiteCode` raises AttributeError otherwise. */
  predicate HasSiteCodeColumn(rows: seq<Row>) {
    exists k :: 0 <= k < |rows| && "SiteCode" in rows[k].measurement.fields
  }

  /** How main ends, given the tables collected: KeyError before anything
      is written; `None` and no file when no table was collected; an
      AttributeError, again before the write, when no collected record has
      a `SiteCode`; otherwise the concatenated tables, written to `file`. */
  function MainOutcome(frames: Option<seq<seq<Row>>>, file: string): (r: (ClarityResult, Option<Csv<Row>>))
    ensures r.1.Some? <==> r.0.Combined?
    ensures r.0.Combined? ==> frames.Some? && r.0.rows == Flatten(frames.value) && r.1 == Some(Csv(file, r.0.rows))
    ensures r.0.NoData? <==> frames == Some([])
    ensures r.0.Crashed? <==> frames.None? || (frames.value != [] && !HasSiteCodeColumn(Flatten(frames.value)))
  {
    match frames
    case None => (Crashed, None)
    case Some(tables) =>
      if tables == [] then (NoData, None)
      else if !HasSiteCodeColumn(Flatten(tables)) then (Crashed, None)
      else (Combined(Flatten(tables)), Some(Csv(file, Flatten(tables))))
  }

  /** Some record of the reply has a `SiteCode` field. */
  predicate HasSiteCodeRecord(body: seq<Measurement>) {
    exists i :: 0 <= i < |body| && "SiteCode" in body[i].fields
  }

  /** The combined table has a `SiteCode` column exactly when some
      successful pair's reply has a record with that field, so main fails
      with AttributeError exactly when none does. */
  lemma SiteCodeColumnFromReplies(q: Query, pairs: seq<Pair>)
    requires PairFrames(q, pairs).Some?
    ensures HasSiteCodeColumn(Flatten(PairFrames(q, pairs).value)) <==>
              exists k :: 0 <= k < |pairs| && Fetched(q, pairs[k]).Some? && HasSiteCodeRecord(Fetched(q, pairs[k]).value)
  {
    var rows := Flatten(PairFrames(q, pairs).value);
    if HasSiteCodeColumn(rows) {
      var i :| 0 <= i < |rows| && "SiteCode" in rows[i].measurement.fields;
      var row := rows[i];
      CombinedRows(q, pairs, row);
      var k :| 0 <= k < |pairs| && Yields(q, pairs[k], row);
      var body := Fetched(q, pairs[k]).value;
      var idx :| 0 <= idx < |body| && body[idx] == row.measurement;
      assert HasSiteCodeRecord(body);
    }
    if exists k :: 0 <= k < |pairs| && Fetched(q, pairs[k]).Some? && HasSiteCodeRecord(Fetched(q, pairs[k]).value) {
      var k :| 0 <= k < |pairs| && Fetched(q, pairs[k]).Some? && HasSiteCodeRecord(Fetched(q, pairs[k]).value);
      var body := Fetched(q, pairs[k]).value;
      var idx :| 0 <= idx < |body| && "SiteCode" in body[idx].fields;
      var row := Tag(body[idx], pairs[k].species);
      assert Yields(q, pairs[k], row);
      CombinedRows(q, pairs, row);
      var i :| 0 <= i < |rows| && rows[i] == row;
      assert "SiteCode" in rows[i].measurement.fields;
    }
  }

  lemma SitePairsExtend(siteCode: string, species: seq<string>, j: nat)
    requires j < |species|
    ensures SitePairs(siteCode, species[..j]) + [Pair(siteCode, species[j])] == SitePairs(siteCode, species[..j + 1])
  {
    var l := SitePairs(siteCode, species[..j]) + [Pair(siteCode, species[j])];
    var r := SitePairs(siteCode, species[..j + 1]);
    assert |l| == |r|;
    forall k | 0 <= k < |l|
      ensures l[k] == r[k]
    {
      if k < j {
        assert l[k] == Pair(siteCode, species[..j][k]);
      }
    }
  }

  lemma SitePairsSplit(siteCode: string, species: seq<string>, j: nat)
    requires j <= |species|
    ensures SitePairs(siteCode, species) == SitePairs(siteCode, species[..j]) + SitePairs(siteCode, species[j..])
  {
    var l := SitePairs(siteCode, species[..j]) + SitePairs(siteCode, species[j..]);
    var r := SitePairs(siteCode, species);
    assert |l| == |r|;
    forall k | 0 <= k < |l|
      ensures l[k] == r[k]
    {
      if k < j {
        assert l[k] == Pair(siteCode, species[..j][k]);
      } else {
        assert l[k] == SitePairs(siteCode, species[j..])[k - j] == Pair(siteCode, species[j..][k - j]);
      }
    }
  }

  lemma PairsNextSite(siteCodes: seq<string>, species: seq<string>, i: nat)
    requires i < |siteCodes|
    ensures Pairs(siteCodes[..i], species) + SitePairs(siteCodes[i], species)
         == Pairs(siteCodes[..i + 1], species)
  {
    assert siteCodes[..i + 1][..i] == siteCodes[..i];
  }

  /** The pairs visited up to and including `(i, j)` are a prefix of all pairs. */
  lemma PairsPrefix(siteCodes: seq<string>, species: seq<string>, i: nat, j: nat) returns (tail: seq<Pair>)
    requires i < |siteCodes| && j < |species|
    ensures Pairs(siteCodes, species) == Pairs(siteCodes[..i], species) + SitePairs(siteCodes[i], species[..j + 1]) + tail
  {
    var s := siteCodes[i];
    var later := siteCodes[i + 1..];
    assert siteCodes == siteCodes[..i] + ([s] + later);
    PairsAppend(siteCodes[..i], [s] + later, species);
    PairsAppend([s], later, species);
    assert Pairs([s], species) == SitePairs(s, species) by {
      assert [s][..0] == [];
    }
    SitePairsSplit(s, species, j + 1);
    tail := SitePairs(s, species[j + 1..]) + Pairs(later, species);
  }

  /** The request parts main uses: the window ends at `now` and starts
      `days` days earlier, each end rendered as text. */
  function WindowQuery(averaging: string, days: int, now: int, render: int -> string,
                       apiKey: Option<string>, server: string -> Reply): (q: Query)
    ensures q.endText == render(now) && q.startText == render(now - days * SecondsPerDay)
    ensures q.averaging == averaging && q.apiKey == apiKey && q.server == server
  {
    Query(averaging, render(now - days * SecondsPerDay), render(now), apiKey, server)
  }

  /** When every request fails, main returns `None` and writes no file. */
  lemma AllFailNoFile(q: Query, siteCodes: seq<string>, species: seq<string>, file: string)
    requires forall k :: 0 <= k < |Pairs(siteCodes, species)| ==> Fetched(q, Pairs(siteCodes, species)[k]).None?
    ensures MainOutcome(PairFrames(q, Pairs(siteCodes, species)), file) == (NoData, None)
  {
    AllPairsFail(q, Pairs(siteCodes, species));
  }

  /** main reports no data exactly when no row was collected: a kept table
      is never empty. */
  lemma NoDataMeansNoRows(q: Query, pairs: seq<Pair>, file: string)
    requires PairFrames(q, pairs).Some?
    ensures MainOutcome(PairFrames(q, pairs), file).0 == NoData <==> Flatten(PairFrames(q, pairs).value) == []
  {
    var frames := PairFrames(q, pairs).value;
    FramesNonEmpty(q, pairs);
    if frames != [] {
      assert frames[0] in frames;
      assert |Flatten(frames)| >= |frames[0]|;
    }
  }

  /** One turn of the inner loop extends the visited pairs by pair `(i, j)`. */
  lemma NextPair(q: Query, siteCodes: seq<string>, species: seq<string>, i: nat, j: nat, visited: seq<Pair>)
    requires i < |siteCodes| && j < |species|
    requires visited == Pairs(siteCodes[..i], species) + SitePairs(siteCodes[i], species[..j])
    ensures visited + [Pair(siteCodes[i], species[j])]
         == Pairs(siteCodes[..i], species) + SitePairs(siteCodes[i], species[..j + 1])
    ensures PairFrames(q, visited + [Pair(siteCodes[i], species[j])])
         == Visit(q, PairFrames(q, visited), Pair(siteCodes[i], species[j]))
  {
    PairFramesSnoc(q, visited, Pair(siteCodes[i], species[j]));
    SitePairsExtend(siteCodes[i], species, j);
  }

  /** Once KeyError is raised at pair `(i, j)`, no pair after it can undo it. */
  lemma KeyErrorEndsMain(q: Query, siteCodes: seq<string>, species: seq<string>, i: nat, j: nat)
    requires i < |siteCodes| && j < |species|
    requires PairFrames(q, Pairs(siteCodes[..i], species) + SitePairs(siteCodes[i], species[..j + 1])).None?
    ensures PairFrames(q, Pairs(siteCodes, species)).None?
  {
    var tail := PairsPrefix(siteCodes, species, i, j);
    PairFramesAppend(q, Pairs(siteCodes[..i], species) + SitePairs(siteCodes[i], species[..j + 1]), tail);
  }

  /** main: the window ends now and starts `days` days earlier; each pair is
      fetched site-major; a failing pair is skipped; every kept table gets
      its `species` and `mod_datetime` columns. The tables are concatenated
      and written to CSV when there is at least one; otherwise the result is
      `None` and nothing is written. A 200 reply without `DateTime`, or a
      combined table without `SiteCode`, raises out of main before anything
      is written. */
  method CollectClarityData(siteCodes: seq<string>, species: seq<string>, averaging: string, days: int, now: int,
              render: int -> string, apiKey: Option<string>, server: string -> Reply,
              outputFile: Option<string>, generatedName: string)
    returns (r: ClarityResult, written: Option<Csv<Row>>)
    ensures (r, written) == MainOutcome(PairFrames(WindowQuery(averaging, days, now, render, apiKey, server),
                                               Pairs(siteCodes, species)),
                                    OutputName(outputFile, generatedName))
  {
    var endTime := now;
    var startTime := endTime - days * SecondsPerDay;
    var endText := render(endTime);
    var startText := render(startTime);
    ghost var q := WindowQuery(averaging, days, now, render, apiKey, server);
    assert q.startText == startText && q.endText == endText;

    var dfList: seq<seq<Row>> := [];
    ghost var visited: seq<Pair> := [];
    for i := 0 to |siteCodes|
      invariant visited == Pairs(siteCodes[..i], species)
      invariant PairFrames(q, visited) == Some(dfList)
    {
      for j := 0 to |species|
        invariant visited == Pairs(siteCodes[..i], species) + SitePairs(siteCodes[i], species[..j])
        invariant PairFrames(q, visited) == Some(dfList)
      {
        var data := GetClarityData(siteCodes[i], species[j], startText, endText, averaging, apiKey, server);
        ghost var p := Pair(siteCodes[i], species[j]);
        assert data == Fetched(q, p);
        NextPair(q, siteCodes, species, i, j, visited);
        visited := visited + [p];
        if data.Some? {
          if !HasDateTimeColumn(data.value) {
            assert PairFrames(q, visited) == None;
            KeyErrorEndsMain(q, siteCodes, species, i, j);
            r, written := Crashed, None;
            return;
          }
          dfList := dfList + [TagFrame(data.value, species[j])];
        }
        assert PairFrames(q, visited) == Some(dfList);
      }
      PairsNextSite(siteCodes, species, i);
    }
    assert siteCodes[..|siteCodes|] == siteCodes;

    if dfList != [] {
      var dfAll := Flatten(dfList);
      if !HasSiteCodeColumn(dfAll) {
        r, written := Crashed, None;
        return;
      }
      written := Some(Csv(OutputName(outputFile, generatedName), dfAll));
      r := Combined(dfAll);
    } else {
      r, written := NoData, None;
    }
  }
}
