/** The live-camera view's detection coordinator: two channels (number plates and objects),
    each with a camera URL, a loading flag, an error message, the last processed image and
    detection time, the last payload and running statistics. A detection call is guarded
    against the other channel being busy and against an empty URL, then makes up to three
    attempts with a one-second wait after each failed attempt but the last.

    The network is replaced by `fetch`: `fetch[k]` is what the k-th request of one
    invocation produces. Waiting is counted, not performed. */
module LiveCam {
  import opened Wrappers
  import Text

  const MaxAttempts: nat := 3
  const BackoffMs: nat := 1000

  const ImagePrefix := "data:image/jpeg;base64,"
  const WaitForObjects := "Please wait for object detection to complete"
  const WaitForPlates := "Please wait for plate detection to complete"
  const EnterUrl := "Please enter a valid camera URL"
  const InvalidUrlFormat := "Invalid camera URL format"
  const FailedPrefix := "Detection failed: "
  const DefaultFailure := "Detection failed"
  const StatusPrefix := "API responded with status: "
  const NoPlates := "No plates detected"
  const PlateError := "Error: Detection failed"

  // ---------------------------------------------------------------------------
  // Data model
  // ---------------------------------------------------------------------------

  datatype Stats = Stats(total: nat, successful: nat)

  predicate Consistent(s: Stats) { s.successful <= s.total }

  /** The JSON body of a detection response. An absent `plates` is the empty list, an
      absent or empty `timestamp` and `error` are "", and `objectCount` is None when the
      field is missing or null (the only falsy values an object field can take). */
  datatype Reply = Reply(
    success: bool,
    image: string,
    plates: seq<string>,
    objectCount: Option<map<string, int>>,
    timestamp: string,
    error: string)

  /** One request: either it threw (network error, unreadable JSON) or it produced an
      HTTP status and a body. */
  datatype Attempt = Thrown(message: string) | Responded(status: nat, body: Reply)

  predicate StatusOk(status: nat) { 200 <= status <= 299 }

  predicate Succeeded(a: Attempt) {
    a.Responded? && StatusOk(a.status) && a.body.success
  }

  /** The message of the error an unsuccessful attempt throws. */
  function FailureMessage(a: Attempt): (m: string)
    requires !Succeeded(a)
    ensures a.Thrown? ==> m == a.message
    ensures a.Responded? && !StatusOk(a.status) ==>
      && |m| > |StatusPrefix| && m[..|StatusPrefix|] == StatusPrefix
      && (forall i :: |StatusPrefix| <= i < |m| ==> Text.IsDigit(m[i]))
      && Text.DecimalValue(m[|StatusPrefix|..]) == a.status
    ensures a.Responded? && StatusOk(a.status) ==> m == (if a.body.error != "" then a.body.error else DefaultFailure)
  {
    match a
    case Thrown(m) => m
    case Responded(status, body) =>
      if !StatusOk(status) then
        Text.NatToStringValue(status);
        StatusPrefix + Text.NatToString(status)
      else if body.error != "" then body.error
      else DefaultFailure
  }

  /** The state of one channel; `P` is its payload: a list of plate texts or a map from
      object label to count. */
  datatype Channel<P> = Channel(
    url: string,
    loading: bool,
    error: Option<string>,
    image: Option<string>,
    time: Option<string>,
    payload: P,
    stats: Stats,
    autoDetect: bool)

  type PlateChannel = Channel<seq<string>>
  type ObjectChannel = Channel<map<string, int>>

  function Initial<P>(payload: P): Channel<P> {
    Channel("", false, None, None, None, payload, Stats(0, 0), false)
  }

  datatype Feed = PlateFeed | ObjectFeed

  /** What one detection call did to its channel, how many requests it made and how many
      one-second waits it took. */
  datatype Invocation<P> = Invocation(channel: Channel<P>, attempts: nat, backoffs: nat)

  // ---------------------------------------------------------------------------
  // URL acceptance
  // ---------------------------------------------------------------------------

  predicate IsSchemeChar(c: char) {
    Text.IsAlnum(c) || c == '+' || c == '-' || c == '.'
  }

  /** `new URL(url)` succeeds: the string starts with a scheme (a letter, then letters,
      digits, '+', '-' or '.') followed by ':'. */
  predicate ValidateCameraUrl(url: string)
    ensures ValidateCameraUrl(url) ==> |url| >= 2 && Text.IsLetter(url[0]) && ':' in url[1..]
  {
    exists i :: 0 < i < |url| && url[i] == ':' && Text.IsLetter(url[0]) &&
      forall j :: 0 < j < i ==> IsSchemeChar(url[j])
  }

  /** A URL whose first colon comes after a letter and scheme characters is accepted: the
      test does not look past the scheme. */
  lemma SchemeDecidesValidity(url: string, i: nat, rest: string)
    requires 0 < i < |url| && url[i] == ':' && Text.IsLetter(url[0])
    requires forall j :: 0 < j < i ==> IsSchemeChar(url[j])
    ensures ValidateCameraUrl(url[..i + 1] + rest)
  {
    var u := url[..i + 1] + rest;
    assert u[i] == ':' && u[0] == url[0];
    assert forall j :: 0 < j < i ==> u[j] == url[j];
  }

  /** The acceptance test of the URL text field: empty clears, valid replaces. */
  predicate AcceptsCameraUrl(url: string) {
    url == "" || ValidateCameraUrl(url)
  }

  function UrlChanged<P>(c: Channel<P>, url: string): (d: Channel<P>)
    ensures AcceptsCameraUrl(url) ==> d.url == url && d.error == None
    ensures !AcceptsCameraUrl(url) ==> d.url == c.url && d.error == Some(InvalidUrlFormat)
    ensures d.(url := c.url, error := c.error) == c
  {
    if AcceptsCameraUrl(url) then c.(url := url, error := None)
    else c.(error := Some(InvalidUrlFormat))
  }

  lemma NotAUrlRejected()
    ensures !AcceptsCameraUrl("not a url")
  {
    var u := "not a url";
    assert forall i :: 0 < i < |u| ==> u[i] != ':';
  }

  lemma HttpUrlAccepted()
    ensures AcceptsCameraUrl("http://192.168.1.10:8080/video")
  {
    var u := "http://192.168.1.10:8080/video";
    assert u[4] == ':' && forall j :: 0 < j < 4 ==> IsSchemeChar(u[j]);
  }

  /** Two examples: a non-URL leaves the URL in place
      and reports the format error; the empty string clears the URL and the error. The
      auto-detect toggle is left as it was in both cases. */
  lemma UrlChangeExamples<P>(c: Channel<P>)
    ensures UrlChanged(c, "not a url") == c.(error := Some(InvalidUrlFormat))
    ensures UrlChanged(c, "") == c.(url := "", error := None)
  {
    NotAUrlRejected();
  }

  // ---------------------------------------------------------------------------
  // One detection call, stated declaratively
  // ---------------------------------------------------------------------------

  /** The index of the first successful attempt among the first n, or n if none. */
  function FirstSuccess(fetch: seq<Attempt>, n: nat): (k: nat)
    requires n <= |fetch|
    ensures k <= n
    ensures forall j :: 0 <= j < k ==> !Succeeded(fetch[j])
    ensures k < n ==> Succeeded(fetch[k])
  {
    if n == 0 then 0
    else
      var k := FirstSuccess(fetch, n - 1);
      if k < n - 1 then k else if Succeeded(fetch[n - 1]) then n - 1 else n
  }

  predicate ShouldPoll<P>(c: Channel<P>) {
    c.autoDetect && c.url != "" && !c.loading
  }

  /** The state at the start of an attempt: loading, no error. */
  function Started<P>(c: Channel<P>): Channel<P> {
    c.(loading := true, error := None)
  }

  function PlatesSucceeded(c: PlateChannel, r: Reply): PlateChannel {
    var found := |r.plates| > 0;
    c.(image := Some(ImagePrefix + r.image),
       payload := if found then r.plates else [NoPlates],
       stats := Stats(c.stats.total + 1, c.stats.successful + if found then 1 else 0),
       time := if r.timestamp != "" then Some(r.timestamp) else c.time)
  }

  function PlatesFailed(c: PlateChannel, message: string): PlateChannel {
    c.(loading := false,
       error := Some(FailedPrefix + message),
       payload := [PlateError],
       stats := c.stats.(total := c.stats.total + 1))
  }

  function ObjectsSucceeded(c: ObjectChannel, r: Reply): ObjectChannel {
    c.(image := Some(ImagePrefix + r.image),
       payload := r.objectCount.GetOr(map[]),
       stats := Stats(c.stats.total + 1, c.stats.successful + if r.objectCount.Some? then 1 else 0),
       time := if r.timestamp != "" then Some(r.timestamp) else c.time)
  }

  function ObjectsFailed(c: ObjectChannel, message: string): ObjectChannel {
    c.(loading := false,
       error := Some(FailedPrefix + message),
       payload := map[],
       stats := c.stats.(total := c.stats.total + 1))
  }

  /** detectPlates: `otherLoading` is the object channel's loading flag. */
  function DetectPlatesSpec(c: PlateChannel, otherLoading: bool, fetch: seq<Attempt>): (o: Invocation<seq<string>>)
    requires |fetch| >= MaxAttempts
    ensures o.attempts <= MaxAttempts
    ensures o.backoffs == if o.attempts == 0 then 0 else o.attempts - 1
    ensures o.attempts == 0 <==> otherLoading || c.url == ""
    ensures o.channel.url == c.url && o.channel.autoDetect == c.autoDetect
    ensures o.channel.loading && otherLoading ==> c.loading
  {
    if otherLoading then Invocation(c.(error := Some(WaitForObjects)), 0, 0)
    else if c.url == "" then Invocation(c.(error := Some(EnterUrl)), 0, 0)
    else
      var k := FirstSuccess(fetch, MaxAttempts);
      if k < MaxAttempts then Invocation(PlatesSucceeded(Started(c), fetch[k].body), k + 1, k)
      else Invocation(PlatesFailed(Started(c), FailureMessage(fetch[MaxAttempts - 1])), MaxAttempts, MaxAttempts - 1)
  }

  /** detectObjects: `otherLoading` is the plate channel's loading flag. */
  function DetectObjectsSpec(c: ObjectChannel, otherLoading: bool, fetch: seq<Attempt>): (o: Invocation<map<string, int>>)
    requires |fetch| >= MaxAttempts
    ensures o.attempts <= MaxAttempts
    ensures o.backoffs == if o.attempts == 0 then 0 else o.attempts - 1
    ensures o.attempts == 0 <==> otherLoading || c.url == ""
    ensures o.channel.url == c.url && o.channel.autoDetect == c.autoDetect
    ensures o.channel.loading && otherLoading ==> c.loading
  {
    if otherLoading then Invocation(c.(error := Some(WaitForPlates)), 0, 0)
    else if c.url == "" then Invocation(c.(error := Some(EnterUrl)), 0, 0)
    else
      var k := FirstSuccess(fetch, MaxAttempts);
      if k < MaxAttempts then Invocation(ObjectsSucceeded(Started(c), fetch[k].body), k + 1, k)
      else Invocation(ObjectsFailed(Started(c), FailureMessage(fetch[MaxAttempts - 1])), MaxAttempts, MaxAttempts - 1)
  }

  // ---------------------------------------------------------------------------
  // Properties of one detection call
  // ---------------------------------------------------------------------------

  /** A guarded-out call only sets its own error: no request, no wait, nothing else. */
  lemma DetectPlatesRejected(c: PlateChannel, otherLoading: bool, fetch: seq<Attempt>)
    requires |fetch| >= MaxAttempts
    requires otherLoading || c.url == ""
    ensures var o := DetectPlatesSpec(c, otherLoading, fetch);
      o.attempts == 0 && o.backoffs == 0 &&
      o.channel == c.(error := Some(if otherLoading then WaitForObjects else EnterUrl))
  {
  }

  lemma DetectObjectsRejected(c: ObjectChannel, otherLoading: bool, fetch: seq<Attempt>)
    requires |fetch| >= MaxAttempts
    requires otherLoading || c.url == ""
    ensures var o := DetectObjectsSpec(c, otherLoading, fetch);
      o.attempts == 0 && o.backoffs == 0 &&
      o.channel == c.(error := Some(if otherLoading then WaitForPlates else EnterUrl))
  {
  }

  /** A call that passes the guards makes between one and three requests, stops at the
      first success, and waits once after every failed request except the last one. */
  lemma DetectPlatesRetries(c: PlateChannel, otherLoading: bool, fetch: seq<Attempt>)
    requires |fetch| >= MaxAttempts
    requires !otherLoading && c.url != ""
    ensures var o := DetectPlatesSpec(c, otherLoading, fetch);
      && 1 <= o.attempts <= MaxAttempts
      && o.backoffs == o.attempts - 1
      && (forall j :: 0 <= j < o.attempts - 1 ==> !Succeeded(fetch[j]))
      && (Succeeded(fetch[o.attempts - 1]) || o.attempts == MaxAttempts)
      && (o.channel.loading <==> Succeeded(fetch[o.attempts - 1]))
  {
  }

  lemma DetectObjectsRetries(c: ObjectChannel, otherLoading: bool, fetch: seq<Attempt>)
    requires |fetch| >= MaxAttempts
    requires !otherLoading && c.url != ""
    ensures var o := DetectObjectsSpec(c, otherLoading, fetch);
      && 1 <= o.attempts <= MaxAttempts
      && o.backoffs == o.attempts - 1
      && (forall j :: 0 <= j < o.attempts - 1 ==> !Succeeded(fetch[j]))
      && (Succeeded(fetch[o.attempts - 1]) || o.attempts == MaxAttempts)
      && (o.channel.loading <==> Succeeded(fetch[o.attempts - 1]))
  {
  }

  /** Statistics: a call past the guards adds exactly one to `total` and at most one to
      `successful`; a rejected call changes neither; `successful <= total` is kept. A plate
      call counts as successful exactly when the successful response listed plates. */
  lemma DetectPlatesStats(c: PlateChannel, otherLoading: bool, fetch: seq<Attempt>)
    requires |fetch| >= MaxAttempts
    ensures var o := DetectPlatesSpec(c, otherLoading, fetch);
      var k := FirstSuccess(fetch, MaxAttempts);
      && (otherLoading || c.url == "" ==> o.channel.stats == c.stats)
      && (!otherLoading && c.url != "" ==>
            && o.channel.stats.total == c.stats.total + 1
            && (o.channel.stats.successful == c.stats.successful + 1 <==>
                  k < MaxAttempts && |fetch[k].body.plates| > 0)
            && (o.channel.stats.successful != c.stats.successful + 1 ==>
                  o.channel.stats.successful == c.stats.successful))
      && (Consistent(c.stats) ==> Consistent(o.channel.stats))
  {
  }

  /** An object call counts as successful exactly when the successful response carried an
      object_count, even an empty one. */
  lemma DetectObjectsStats(c: ObjectChannel, otherLoading: bool, fetch: seq<Attempt>)
    requires |fetch| >= MaxAttempts
    ensures var o := DetectObjectsSpec(c, otherLoading, fetch);
      var k := FirstSuccess(fetch, MaxAttempts);
      && (otherLoading || c.url == "" ==> o.channel.stats == c.stats)
      && (!otherLoading && c.url != "" ==>
            && o.channel.stats.total == c.stats.total + 1
            && (o.channel.stats.successful == c.stats.successful + 1 <==>
                  k < MaxAttempts && fetch[k].body.objectCount.Some?)
            && (o.channel.stats.successful != c.stats.successful + 1 ==>
                  o.channel.stats.successful == c.stats.successful))
      && (Consistent(c.stats) ==> Consistent(o.channel.stats))
  {
  }

  /** The result of a plate call past the guards: on success the image is replaced, the
      time only when the response had one, the payload is the plates or the "No plates"
      sentinel and the error is cleared; on terminal failure the image and time are kept,
      the error names the last failure and the payload is the error sentinel. The URL and
      the auto-detect toggle are never touched. */
  lemma DetectPlatesOutcome(c: PlateChannel, otherLoading: bool, fetch: seq<Attempt>)
    requires |fetch| >= MaxAttempts
    requires !otherLoading && c.url != ""
    ensures var o := DetectPlatesSpec(c, otherLoading, fetch);
      var k := FirstSuccess(fetch, MaxAttempts);
      var d := o.channel;
      && d.url == c.url && d.autoDetect == c.autoDetect
      && (k < MaxAttempts ==>
            var r := fetch[k].body;
            && d.image == Some(ImagePrefix + r.image)
            && d.time == (if r.timestamp != "" then Some(r.timestamp) else c.time)
            && d.payload == (if |r.plates| > 0 then r.plates else [NoPlates])
            && d.error == None)
      && (k == MaxAttempts ==>
            && d.image == c.image && d.time == c.time
            && d.error == Some(FailedPrefix + FailureMessage(fetch[MaxAttempts - 1]))
            && d.payload == [PlateError])
  {
  }

  lemma DetectObjectsOutcome(c: ObjectChannel, otherLoading: bool, fetch: seq<Attempt>)
    requires |fetch| >= MaxAttempts
    requires !otherLoading && c.url != ""
    ensures var o := DetectObjectsSpec(c, otherLoading, fetch);
      var k := FirstSuccess(fetch, MaxAttempts);
      var d := o.channel;
      && d.url == c.url && d.autoDetect == c.autoDetect
      && (k < MaxAttempts ==>
            var r := fetch[k].body;
            && d.image == Some(ImagePrefix + r.image)
            && d.time == (if r.timestamp != "" then Some(r.timestamp) else c.time)
            && d.payload == r.objectCount.GetOr(map[])
            && d.error == None)
      && (k == MaxAttempts ==>
            && d.image == c.image && d.time == c.time
            && d.error == Some(FailedPrefix + FailureMessage(fetch[MaxAttempts - 1]))
            && d.payload == map[])
  {
  }

  /** Two failures and then a success: one more total and one more success (when plates
      were found), two waits, three requests. */
  lemma FailTwiceThenSucceed(c: PlateChannel, fetch: seq<Attempt>)
    requires |fetch| == MaxAttempts && c.url != ""
    requires !Succeeded(fetch[0]) && !Succeeded(fetch[1]) && Succeeded(fetch[2])
    requires |fetch[2].body.plates| > 0
    ensures var o := DetectPlatesSpec(c, false, fetch);
      && o.attempts == 3 && o.backoffs == 2
      && o.channel.stats == Stats(c.stats.total + 1, c.stats.successful + 1)
      && o.channel.payload == fetch[2].body.plates
  {
    assert FirstSuccess(fetch, MaxAttempts) == 2;
  }

  /** Three failures: the error and the error sentinel are set and only `total` grows. */
  lemma FailThreeTimes(c: ObjectChannel, fetch: seq<Attempt>)
    requires |fetch| == MaxAttempts && c.url != ""
    requires forall j :: 0 <= j < MaxAttempts ==> !Succeeded(fetch[j])
    ensures var o := DetectObjectsSpec(c, false, fetch);
      && o.attempts == 3 && o.backoffs == 2
      && o.channel.stats == c.stats.(total := c.stats.total + 1)
      && o.channel.error == Some(FailedPrefix + FailureMessage(fetch[2]))
      && o.channel.payload == map[]
      && !o.channel.loading
  {
  }

  /** The auto-detect tick never starts a call while its own channel is loading. */
  lemma TickSkippedWhileLoading<P>(c: Channel<P>)
    requires c.loading
    ensures !ShouldPoll(c)
  {
  }

  /** As written, a successful call leaves its channel loading. From then on the other
      channel's calls are rejected and its own tick no longer fires. */
  lemma SuccessLeavesPlatesLoading(c: PlateChannel, objects: ObjectChannel, fetch: seq<Attempt>, next: seq<Attempt>)
    requires |fetch| >= MaxAttempts && |next| >= MaxAttempts
    requires !objects.loading && c.url != ""
    requires FirstSuccess(fetch, MaxAttempts) < MaxAttempts
    ensures var p := DetectPlatesSpec(c, objects.loading, fetch).channel;
      && p.loading
      && !ShouldPoll(p)
      && DetectObjectsSpec(objects, p.loading, next) ==
           Invocation(objects.(error := Some(WaitForPlates)), 0, 0)
  {
  }

  /** The two channels are never loading at the same time: a call only sets its own
      loading flag, and only when the other channel is not loading. */
  lemma CallsKeepExclusion(p: PlateChannel, o: ObjectChannel, fetch: seq<Attempt>)
    requires |fetch| >= MaxAttempts
    requires !(p.loading && o.loading)
    ensures !(DetectPlatesSpec(p, o.loading, fetch).channel.loading && o.loading)
    ensures !(p.loading && DetectObjectsSpec(o, p.loading, fetch).channel.loading)
  {
  }

  // ---------------------------------------------------------------------------
  // Success rate (the badge)
  // ---------------------------------------------------------------------------

  /** `stats.total ? (successful / total) * 100 : 0`, before rounding for display. */
  function SuccessRate(s: Stats): (r: real)
    ensures s.total == 0 ==> r == 0.0
    ensures s.total > 0 ==> r * (s.total as real) == 100.0 * (s.successful as real)
    ensures Consistent(s) ==> 0.0 <= r <= 100.0
  {
    if s.total == 0 then 0.0
    else
      var q := s.successful as real / s.total as real;
      assert q * (s.total as real) == s.successful as real;
      assert Consistent(s) ==> q <= 1.0;
      q * 100.0
  }

  // ---------------------------------------------------------------------------
  // The view's state
  // ---------------------------------------------------------------------------

  class LiveCamView {
    var plates: PlateChannel
    var objects: ObjectChannel

    ghost predicate Valid()
      reads this
    {
      && Consistent(plates.stats)
      && Consistent(objects.stats)
      && !(plates.loading && objects.loading)
    }

    constructor ()
      ensures Valid()
      ensures plates == Initial([]) && objects == Initial(map[])
    {
      plates := Initial([]);
      objects := Initial(map[]);
    }

    /** handleCameraUrlChange wired to one channel's URL and error setters. */
    method ChangeCameraUrl(feed: Feed, url: string)
      requires Valid()
      modifies this
      ensures Valid()
      ensures feed == PlateFeed ==> plates == UrlChanged(old(plates), url) && objects == old(objects)
      ensures feed == ObjectFeed ==> objects == UrlChanged(old(objects), url) && plates == old(plates)
    {
      if url == "" || ValidateCameraUrl(url) {
        if feed == PlateFeed {
          plates := plates.(url := url);
          plates := plates.(error := None);
        } else {
          objects := objects.(url := url);
          objects := objects.(error := None);
        }
      } else {
        if feed == PlateFeed {
          plates := plates.(error := Some(InvalidUrlFormat));
        } else {
          objects := objects.(error := Some(InvalidUrlFormat));
        }
      }
    }

    /** The "Start/Stop Auto Detection" button, disabled while the URL is empty. */
    method ToggleAutoDetect(feed: Feed)
      requires Valid()
      modifies this
      ensures Valid()
      ensures feed == PlateFeed ==>
        plates == old(plates).(autoDetect := if old(plates.url) != "" then !old(plates.autoDetect) else old(plates.autoDetect))
        && objects == old(objects)
      ensures feed == ObjectFeed ==>
        objects == old(objects).(autoDetect := if old(objects.url) != "" then !old(objects.autoDetect) else old(objects.autoDetect))
        && plates == old(plates)
    {
      if feed == PlateFeed {
        if plates.url != "" {
          plates := plates.(autoDetect := !plates.autoDetect);
        }
      } else {
        if objects.url != "" {
          objects := objects.(autoDetect := !objects.autoDetect);
        }
      }
    }

    /** detectPlates. Returns the number of requests made and the milliseconds waited. */
    method DetectPlates(fetch: seq<Attempt>) returns (attempts: nat, sleptMs: nat)
      requires Valid()
      requires |fetch| >= MaxAttempts
      modifies this
      ensures Valid()
      ensures var o := DetectPlatesSpec(old(plates), old(objects.loading), fetch);
        plates == o.channel && attempts == o.attempts && sleptMs == BackoffMs * o.backoffs
      ensures objects == old(objects)
    {
      attempts, sleptMs := 0, 0;
      if objects.loading {
        plates := plates.(error := Some(WaitForObjects));
        return;
      }
      if plates.url == "" {
        plates := plates.(error := Some(EnterUrl));
        return;
      }
      ghost var before := plates;
      var retries := MaxAttempts;
      while retries > 0
        invariant 0 <= retries <= MaxAttempts
        invariant attempts == MaxAttempts - retries
        invariant forall j :: 0 <= j < attempts ==> !Succeeded(fetch[j])
        invariant sleptMs == BackoffMs * (if retries == 0 then MaxAttempts - 1 else attempts)
        invariant retries > 0 ==> plates == if attempts == 0 then before else Started(before)
        invariant retries == 0 ==>
          plates == PlatesFailed(Started(before), FailureMessage(fetch[MaxAttempts - 1]))
        invariant objects == old(objects)
      {
        plates := plates.(loading := true, error := None);
        var a := fetch[attempts];
        attempts := attempts + 1;
        if Succeeded(a) {
          plates := plates.(image := Some(ImagePrefix + a.body.image));
          if |a.body.plates| > 0 {
            plates := plates.(payload := a.body.plates,
                              stats := Stats(plates.stats.total + 1, plates.stats.successful + 1));
          } else {
            plates := plates.(payload := [NoPlates],
                              stats := plates.stats.(total := plates.stats.total + 1));
          }
          if a.body.timestamp != "" {
            plates := plates.(time := Some(a.body.timestamp));
          }
          break;
        }
        retries := retries - 1;
        if retries == 0 {
          plates := plates.(error := Some(FailedPrefix + FailureMessage(a)),
                            payload := [PlateError],
                            stats := plates.stats.(total := plates.stats.total + 1));
        } else {
          sleptMs := sleptMs + BackoffMs;
        }
        if retries == 0 {
          plates := plates.(loading := false);
        }
      }
    }

    /** detectObjects. Returns the number of requests made and the milliseconds waited. */
    method DetectObjects(fetch: seq<Attempt>) returns (attempts: nat, sleptMs: nat)
      requires Valid()
      requires |fetch| >= MaxAttempts
      modifies this
      ensures Valid()
      ensures var o := DetectObjectsSpec(old(objects), old(plates.loading), fetch);
        objects == o.channel && attempts == o.attempts && sleptMs == BackoffMs * o.backoffs
      ensures plates == old(plates)
    {
      attempts, sleptMs := 0, 0;
      if plates.loading {
        objects := objects.(error := Some(WaitForPlates));
        return;
      }
      if objects.url == "" {
        objects := objects.(error := Some(EnterUrl));
        return;
      }
      ghost var before := objects;
      var retries := MaxAttempts;
      while retries > 0
        invariant 0 <= retries <= MaxAttempts
        invariant attempts == MaxAttempts - retries
        invariant forall j :: 0 <= j < attempts ==> !Succeeded(fetch[j])
        invariant sleptMs == BackoffMs * (if retries == 0 then MaxAttempts - 1 else attempts)
        invariant retries > 0 ==> objects == if attempts == 0 then before else Started(before)
        invariant retries == 0 ==>
          objects == ObjectsFailed(Started(before), FailureMessage(fetch[MaxAttempts - 1]))
        invariant plates == old(plates)
      {
        objects := objects.(loading := true, error := None);
        var a := fetch[attempts];
        attempts := attempts + 1;
        if Succeeded(a) {
          objects := objects.(image := Some(ImagePrefix + a.body.image));
          if a.body.objectCount.Some? {
            objects := objects.(payload := a.body.objectCount.value,
                                stats := Stats(objects.stats.total + 1, objects.stats.successful + 1));
          } else {
            objects := objects.(payload := map[],
                                stats := objects.stats.(total := objects.stats.total + 1));
          }
          if a.body.timestamp != "" {
            objects := objects.(time := Some(a.body.timestamp));
          }
          break;
        }
        retries := retries - 1;
        if retries == 0 {
          objects := objects.(error := Some(FailedPrefix + FailureMessage(a)),
                              payload := map[],
                              stats := objects.stats.(total := objects.stats.total + 1));
        } else {
          sleptMs := sleptMs + BackoffMs;
        }
        if retries == 0 {
          objects := objects.(loading := false);
        }
      }
    }

    /** One firing of the plate channel's one-second interval: the interval exists only
        while auto-detect is on and the URL is non-empty, and it skips while loading. */
    method TickPlates(fetch: seq<Attempt>) returns (fired: bool, attempts: nat, sleptMs: nat)
      requires Valid()
      requires |fetch| >= MaxAttempts
      modifies this
      ensures Valid()
      ensures fired == ShouldPoll(old(plates))
      ensures fired ==>
        var o := DetectPlatesSpec(old(plates), old(objects.loading), fetch);
        plates == o.channel && attempts == o.attempts && sleptMs == BackoffMs * o.backoffs
      ensures !fired ==> plates == old(plates) && attempts == 0 && sleptMs == 0
      ensures objects == old(objects)
    {
      fired, attempts, sleptMs := false, 0, 0;
      if plates.autoDetect && plates.url != "" {
        if !plates.loading {
          fired := true;
          attempts, sleptMs := DetectPlates(fetch);
        }
      }
    }

    /** One firing of the object channel's one-second interval. */
    method TickObjects(fetch: seq<Attempt>) returns (fired: bool, attempts: nat, sleptMs: nat)
      requires Valid()
      requires |fetch| >= MaxAttempts
      modifies this
      ensures Valid()
      ensures fired == ShouldPoll(old(objects))
      ensures fired ==>
        var o := DetectObjectsSpec(old(objects), old(plates.loading), fetch);
        objects == o.channel && attempts == o.attempts && sleptMs == BackoffMs * o.backoffs
      ensures !fired ==> objects == old(objects) && attempts == 0 && sleptMs == 0
      ensures plates == old(plates)
    {
      fired, attempts, sleptMs := false, 0, 0;
      if objects.autoDetect && objects.url != "" {
        if !objects.loading {
          fired := true;
          attempts, sleptMs := DetectObjects(fetch);
        }
      }
    }
  }
}
