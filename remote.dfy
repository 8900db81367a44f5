/**
 * manager/RemoteFeatureManager.java: flows are served from an in-memory cache
 * that a background poller replaces with the server's answer. The HTTP call
 * is not modelled; each poll is handed its outcome instead.
 */
module Remote {
  import opened Wrappers
  import opened Common
  import opened JavaStrings
  import opened Properties

  /** Name of the header that carries the API key. */
  const API_KEY_HEADER: string := "x-api-key"

  /** What the GET request came back with: a decoded feature-to-flow map, a
      null body, or any exception (transport error, non-2xx, bad body). */
  datatype HttpOutcome = Success(body: map<string, string>) | NullBody | Failure

  /** A GET request: target URL and headers (a header value may be null). */
  datatype Request = Request(url: string, headers: map<string, Option<string>>)

  /** Java string concatenation writes a null reference as "null". */
  function JavaText(s: Option<string>): string {
    match s
    case Some(t) => t
    case None => "null"
  }

  /** The poll is aborted when the project name is null or blank. */
  predicate ProjectMissing(server: ServerConfig) {
    server.project.None? || IsBlank(server.project.value)
  }

  /** The request one poll sends, or None when it aborts before sending. */
  function RequestFor(server: ServerConfig, endpoint: string): (r: Option<Request>)
    ensures r.None? <==> ProjectMissing(server)
    ensures r.Some? ==> r.value.headers == map[API_KEY_HEADER := server.auth.apiKey]
    ensures r.Some? ==> r.value.url == JavaText(server.url) + "/api/" + server.project.value + endpoint
  {
    if ProjectMissing(server) then None
    else Some(Request(JavaText(server.url) + "/api/" + server.project.value + endpoint,
                      map[API_KEY_HEADER := server.auth.apiKey]))
  }

  /** The cache after one poll that started from cache and met outcome. */
  function NextCache(cache: map<string, string>, server: ServerConfig, outcome: HttpOutcome): map<string, string> {
    if ProjectMissing(server) then cache
    else match outcome
      case Success(body) => body
      case NullBody => cache
      case Failure => if server.fallback then map[] else cache
  }

  /** The cache after the polls meeting outcomes, in order. */
  function Polled(cache: map<string, string>, server: ServerConfig, outcomes: seq<HttpOutcome>): map<string, string> {
    if outcomes == [] then cache
    else NextCache(Polled(cache, server, outcomes[..|outcomes| - 1]), server, outcomes[|outcomes| - 1])
  }

  /** getFlow on a cache: the cached flow, or "default" for an unknown feature. */
  function CachedFlow(cache: map<string, string>, feature: string): (flow: string)
    ensures feature in cache ==> flow == cache[feature]
    ensures feature !in cache ==> flow == DEFAULT
  {
    if feature in cache then cache[feature] else DEFAULT
  }

  /** The remote manager: its settings, the endpoint suffix appended to the
      project path (a constant the model leaves uninterpreted), and the cache. */
  class RemoteFeatureManager {
    const props: FeaturePilotProperties
    const endpoint: string
    var cache: map<string, string>

    /** A new manager holds an empty cache. */
    constructor (props: FeaturePilotProperties, endpoint: string)
      ensures this.props == props && this.endpoint == endpoint
      ensures cache == map[]
    {
      this.props := props;
      this.endpoint := endpoint;
      cache := map[];
    }

    /** getFlow: a read of the cache that never changes it; ctx is unused. */
    method GetFlow<A>(feature: string, ctx: map<string, A>) returns (flow: string)
      ensures flow == CachedFlow(cache, feature)
    {
      flow := if feature in cache then cache[feature] else DEFAULT;
    }

    /** pollRemoteFlags: one poll. The request it sent is returned (None when
        it aborted), and the cache moves as NextCache says. */
    method PollRemoteFlags(outcome: HttpOutcome) returns (request: Option<Request>)
      modifies this
      ensures request == RequestFor(props.source.server, endpoint)
      ensures cache == NextCache(old(cache), props.source.server, outcome)
    {
      var server := props.source.server;
      var projectName := server.project;
      if projectName.None? || IsBlank(projectName.value) {
        request := None;
        return;
      }
      var url := JavaText(server.url) + "/api/" + projectName.value + endpoint;
      request := Some(Request(url, map[API_KEY_HEADER := server.auth.apiKey]));
      match outcome {
        case Success(response) =>
          cache := map[];
          cache := cache + response;
        case NullBody =>
        case Failure =>
          if server.fallback {
            cache := map[];
          }
      }
    }

    /** start: schedule the poller with a fixed delay of refresh ms, first
        tick at once. The scheduler refuses a delay that is not positive, and
        then no poll ever runs: `scheduled` is false for the exception that
        aborts startup. Otherwise the ticks are polls in sequence. */
    method Start(ticks: seq<HttpOutcome>) returns (scheduled: bool)
      modifies this
      ensures scheduled == (props.source.server.refresh > 0)
      ensures cache == if scheduled then Polled(old(cache), props.source.server, ticks) else old(cache)
    {
      var refreshMs := props.source.server.refresh;
      scheduled := refreshMs > 0;
      if !scheduled {
        return;
      }
      var i := 0;
      while i < |ticks|
        invariant 0 <= i <= |ticks|
        invariant cache == Polled(old(cache), props.source.server, ticks[..i])
      {
        var _ := PollRemoteFlags(ticks[i]);
        assert ticks[..i + 1][..i] == ticks[..i];
        i := i + 1;
      }
      assert ticks[..i] == ticks;
    }
  }

  /** An outcome that overwrites the whole cache: a response, or a failure
      under fallback (and only when the project is configured). */
  predicate Resets(server: ServerConfig, outcome: HttpOutcome) {
    !ProjectMissing(server) && (outcome.Success? || (outcome.Failure? && server.fallback))
  }

  /** What a resetting outcome leaves in the cache. */
  function ResetValue(outcome: HttpOutcome): map<string, string> {
    if outcome.Success? then outcome.body else map[]
  }

  /** Before any poll every feature resolves to "default". */
  lemma FreshCacheIsDefault(feature: string)
    ensures CachedFlow(map[], feature) == DEFAULT
  {
  }

  /** A null or blank project aborts the poll: nothing is sent and the cache
      stays as it was, whatever the outcome and the fallback setting. */
  lemma MissingProjectKeepsCache(cache: map<string, string>, server: ServerConfig, endpoint: string, outcome: HttpOutcome)
    requires ProjectMissing(server)
    ensures RequestFor(server, endpoint) == None
    ensures NextCache(cache, server, outcome) == cache
  {
  }

  /** After a successful poll the cache is the response exactly: a feature
      it lists resolves to its value, any other feature to "default". */
  lemma SuccessReplacesCache(cache: map<string, string>, server: ServerConfig, body: map<string, string>, feature: string)
    requires !ProjectMissing(server)
    ensures NextCache(cache, server, Success(body)) == body
    ensures CachedFlow(NextCache(cache, server, Success(body)), feature)
      == if feature in body then body[feature] else DEFAULT
  {
  }

  /** A null response body leaves the cache unchanged. */
  lemma NullBodyKeepsCache(cache: map<string, string>, server: ServerConfig)
    ensures NextCache(cache, server, NullBody) == cache
  {
  }

  /** A failed poll clears the cache under fallback and keeps it otherwise. */
  lemma FailureFollowsFallback(cache: map<string, string>, server: ServerConfig, feature: string)
    requires !ProjectMissing(server)
    ensures server.fallback ==> NextCache(cache, server, Failure) == map[]
    ensures server.fallback ==> CachedFlow(NextCache(cache, server, Failure), feature) == DEFAULT
    ensures !server.fallback ==> NextCache(cache, server, Failure) == cache
  {
  }

  /** Polls that never reset leave the cache as it was. */
  lemma {:induction false} PolledWithoutReset(cache: map<string, string>, server: ServerConfig, outcomes: seq<HttpOutcome>)
    requires forall j :: 0 <= j < |outcomes| ==> !Resets(server, outcomes[j])
    ensures Polled(cache, server, outcomes) == cache
  {
    if outcomes != [] {
      PolledWithoutReset(cache, server, outcomes[..|outcomes| - 1]);
    }
  }

  /** After any run of polls the cache is what the last resetting outcome
      left: its response, or empty for a clearing failure. */
  lemma {:induction false} PolledSinceLastReset(cache: map<string, string>, server: ServerConfig, outcomes: seq<HttpOutcome>, i: nat)
    requires i < |outcomes| && Resets(server, outcomes[i])
    requires forall j :: i < j < |outcomes| ==> !Resets(server, outcomes[j])
    ensures Polled(cache, server, outcomes) == ResetValue(outcomes[i])
  {
    if i < |outcomes| - 1 {
      PolledSinceLastReset(cache, server, outcomes[..|outcomes| - 1], i);
    }
  }

  /** Starting from the empty cache a manager is created with, the cache is
      always either empty or exactly one of the responses it received. */
  lemma {:induction false} PolledFromEmpty(server: ServerConfig, outcomes: seq<HttpOutcome>)
    ensures var c := Polled(map[], server, outcomes);
      c == map[] || exists i :: 0 <= i < |outcomes| && outcomes[i] == Success(c)
  {
    if outcomes != [] {
      var prefix := outcomes[..|outcomes| - 1];
      PolledFromEmpty(server, prefix);
      var c := Polled(map[], server, outcomes);
      var p := Polled(map[], server, prefix);
      if c != map[] && c != p {
        assert outcomes[|outcomes| - 1] == Success(c);
      } else if c != map[] {
        var i :| 0 <= i < |prefix| && prefix[i] == Success(p);
        assert outcomes[i] == Success(c);
      }
    }
  }
}
