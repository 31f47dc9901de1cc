/** The service worker: which requests it answers, with what, and what it may have put into its cache by then. */
module ServiceWorker {
  import opened ExecutorTypes
  import opened Text

  const CACHE_NAME: string := "teraswap-v1"
  const PRECACHE_PATHS: seq<string> := ["/", "/manifest.json", "/favicon.ico", "/favicon.svg", "/apple-touch-icon.png"]

  datatype Url = Url(https: bool, origin: string, path: string, query: string)

  datatype Request = Request(url: Url, get: bool, navigate: bool)

  datatype Response = Response(status: nat, body: string)

  /** `Fresh` came from the network for this request, `Cached` from some cache. */
  datatype Answer = Fresh(response: Response) | Cached(response: Response) | GatewayTimeout | NetworkError

  /** Where an intercepted request stands between two asynchronous steps. */
  datatype Phase = AssetLookup | AssetFetch | PageFetch | PageLookup | ShellLookup

  datatype Flight = Flight(request: Request, phase: Phase)

  datatype Put = Put(url: Url, response: Response)

  predicate IsAsset(path: string) {
    || StartsWith(path, "/icons/") || StartsWith(path, "/sounds/") || StartsWith(path, "/_next/static/")
    || EndsWith(path, ".woff2") || EndsWith(path, ".woff")
    || EndsWith(path, ".png") || EndsWith(path, ".svg") || EndsWith(path, ".ico")
  }

  /** A same-origin HTTPS GET outside the API: the only kind of request the worker may touch. */
  predicate Touchable(origin: string, request: Request) {
    && request.get && request.url.https && request.url.origin == origin
    && !StartsWith(request.url.path, "/api/")
  }

  /** Everything else is left to the browser. */
  predicate Intercepted(origin: string, request: Request) {
    Touchable(origin, request) && (IsAsset(request.url.path) || request.navigate)
  }

  type Cache = map<Url, Response>

  function ShellUrl(origin: string): Url {
    Url(true, origin, "/", "")
  }

  function FirstPhase(request: Request): Phase {
    if IsAsset(request.url.path) then AssetLookup else PageFetch
  }

  // ── What may be cached and answered ──

  /**
   * What has happened: the requests dispatched so far by number, what the network replied to them (`None` when the
   * fetch failed), and what the caches held from the start or were given at installation.
   */
  datatype Log = Log(requests: map<nat, Request>, replies: map<nat, Option<Response>>, given: set<(Url, Response)>) {
    predicate GrowsTo(later: Log) {
      && (forall id :: id in requests ==> id in later.requests && later.requests[id] == requests[id])
      && (forall id :: id in replies ==> id in later.replies && later.replies[id] == replies[id])
      && given <= later.given
    }
  }

  /** A full answer of the network to a request of the worker's own for this very address. */
  ghost predicate Fetched(origin: string, log: Log, url: Url, response: Response) {
    exists id :: FetchedBy(origin, log, id, url, response)
  }

  predicate FetchedBy(origin: string, log: Log, id: nat, url: Url, response: Response) {
    && id in log.replies && id in log.requests && log.replies[id] == Some(response) && response.status == 200
    && log.requests[id].url == url && Intercepted(origin, log.requests[id])
  }

  ghost predicate Known(origin: string, log: Log, url: Url, response: Response) {
    (url, response) in log.given || Fetched(origin, log, url, response)
  }

  lemma KnownGrows(origin: string, log: Log, later: Log)
    requires log.GrowsTo(later)
    ensures forall url, response :: Known(origin, log, url, response) ==> Known(origin, later, url, response)
  {
    forall url, response | Fetched(origin, log, url, response)
      ensures Fetched(origin, later, url, response)
    {
      var id :| FetchedBy(origin, log, id, url, response);
      assert FetchedBy(origin, later, id, url, response);
    }
  }

  /** The only answers the worker may give, and when. */
  ghost predicate AnsweredRight(origin: string, log: Log, id: nat, answer: Answer) {
    && id in log.requests && Intercepted(origin, log.requests[id])
    && var url, asked, replied := log.requests[id].url, id in log.replies, id in log.replies && log.replies[id].Some?;
    match answer
    case Fresh(response) => replied && log.replies[id] == Some(response)
    case Cached(response) =>
      if IsAsset(url.path) then !asked && Known(origin, log, url, response)
      else
        && asked && !replied
        && (Known(origin, log, url, response) || Known(origin, log, Url(true, origin, "/", ""), response))
    case GatewayTimeout => IsAsset(url.path) && asked && !replied
    case NetworkError => !IsAsset(url.path) && asked && !replied
  }

  /**
   * A request under way is the worker's business, not answered yet, and has asked the network when its phase says so.
   */
  ghost predicate UnderWay(origin: string, log: Log, id: nat, flight: Flight) {
    && id in log.requests && log.requests[id] == flight.request && Intercepted(origin, flight.request)
    && (IsAsset(flight.request.url.path) <==> flight.phase.AssetLookup? || flight.phase.AssetFetch?)
    && (if flight.phase.PageLookup? || flight.phase.ShellLookup? then id in log.replies && log.replies[id].None?
        else id !in log.replies)
  }

  /** The worker's state but for the order of its caches. */
  datatype Scene = Scene(
    caches: map<string, Cache>, puts: map<nat, Put>, flights: map<nat, Flight>, answers: map<nat, Answer>)

  ghost predicate StoredSound(origin: string, log: Log, scene: Scene) {
    && (forall name, url :: name in scene.caches && url in scene.caches[name]
          ==> Known(origin, log, url, scene.caches[name][url]))
    && (forall id :: id in scene.puts ==> Known(origin, log, scene.puts[id].url, scene.puts[id].response))
  }

  /** Whatever is cached, under way or answered agrees with what has happened. */
  ghost predicate Consistent(origin: string, log: Log, scene: Scene) {
    && (forall id :: id in log.replies ==> id in log.requests && Intercepted(origin, log.requests[id]))
    && StoredSound(origin, log, scene)
    && (forall id :: id in scene.answers ==> AnsweredRight(origin, log, id, scene.answers[id]))
    && (forall id :: id in scene.flights ==> id !in scene.answers && UnderWay(origin, log, id, scene.flights[id]))
  }

  /** No intercepted request is dropped. */
  predicate Attended(origin: string, log: Log, scene: Scene) {
    forall id :: id in log.requests && Intercepted(origin, log.requests[id]) ==>
      id in scene.flights || id in scene.answers
  }

  predicate OthersAttended(origin: string, log: Log, scene: Scene, id: nat) {
    forall other :: other in log.requests && other != id && Intercepted(origin, log.requests[other]) ==>
      other in scene.flights || other in scene.answers
  }

  ghost predicate Sound(origin: string, log: Log, scene: Scene) {
    Consistent(origin, log, scene) && Attended(origin, log, scene)
  }

  lemma AnsweredRightGrows(origin: string, log: Log, later: Log, id: nat, answer: Answer)
    requires log.GrowsTo(later) && (id in later.replies ==> id in log.replies)
    requires AnsweredRight(origin, log, id, answer)
    ensures AnsweredRight(origin, later, id, answer)
  {
    hide Known, IsAsset, Intercepted;
    KnownGrows(origin, log, later);
  }

  lemma StoredGrows(origin: string, log: Log, later: Log, scene: Scene)
    requires StoredSound(origin, log, scene) && log.GrowsTo(later)
    ensures StoredSound(origin, later, scene)
  {
    hide Known;
    KnownGrows(origin, log, later);
  }

  predicate NewsElsewhere(origin: string, log: Log, later: Log, scene: Scene) {
    forall id :: id in later.replies && id !in log.replies ==>
      id in later.requests && Intercepted(origin, later.requests[id]) && id !in scene.flights && id !in scene.answers
  }

  /** Seeing more keeps everything consistent, as long as nothing new is heard about requests under way or answered. */
  lemma ConsistentGrows(origin: string, log: Log, later: Log, scene: Scene)
    requires Consistent(origin, log, scene) && log.GrowsTo(later) && NewsElsewhere(origin, log, later, scene)
    ensures Consistent(origin, later, scene)
  {
    hide Known, StoredSound, AnsweredRight, IsAsset, Intercepted;
    StoredGrows(origin, log, later, scene);
    forall id | id in scene.answers
      ensures AnsweredRight(origin, later, id, scene.answers[id])
    {
      AnsweredRightGrows(origin, log, later, id, scene.answers[id]);
    }
  }

  lemma ConsistentWithout(origin: string, log: Log, scene: Scene, id: nat)
    requires Consistent(origin, log, scene)
    ensures Consistent(origin, log, scene.(flights := scene.flights - {id}))
  {
    hide Known, AnsweredRight, UnderWay, Intercepted;
  }

  lemma ConsistentWithPut(origin: string, log: Log, scene: Scene, id: nat, put: Put)
    requires Consistent(origin, log, scene) && Known(origin, log, put.url, put.response)
    ensures Consistent(origin, log, scene.(puts := scene.puts[id := put]))
  {
    hide Known, AnsweredRight, UnderWay, Intercepted;
  }

  /** The one request nobody attends to is taken up. */
  lemma SoundWithFlight(origin: string, log: Log, scene: Scene, id: nat, flight: Flight)
    requires Consistent(origin, log, scene) && OthersAttended(origin, log, scene, id)
    requires id !in scene.answers && UnderWay(origin, log, id, flight)
    ensures Sound(origin, log, scene.(flights := scene.flights[id := flight]))
  {
    hide Known, AnsweredRight, UnderWay, Intercepted;
  }

  lemma SoundWithAnswer(origin: string, log: Log, scene: Scene, id: nat, answer: Answer)
    requires Consistent(origin, log, scene) && OthersAttended(origin, log, scene, id)
    requires AnsweredRight(origin, log, id, answer)
    ensures Sound(origin, log, scene.(flights := scene.flights - {id}, answers := scene.answers[id := answer]))
  {
    hide Known, AnsweredRight, UnderWay, Intercepted;
  }

  /** Writing something known, or dropping caches and pending writes, keeps everything sound. */
  lemma SoundWithStores(origin: string, log: Log, scene: Scene, later: Scene)
    requires Sound(origin, log, scene) && later == scene.(caches := later.caches, puts := later.puts)
    requires StoredSound(origin, log, later)
    ensures Sound(origin, log, later)
  {
    hide Known, AnsweredRight, UnderWay, Intercepted, StoredSound;
  }

  /** Dropping caches or pending writes. */
  lemma FewerStored(origin: string, log: Log, scene: Scene, later: Scene)
    requires Sound(origin, log, scene)
    requires forall name :: name in later.caches ==> name in scene.caches && later.caches[name] == scene.caches[name]
    requires forall id :: id in later.puts ==> id in scene.puts && later.puts[id] == scene.puts[id]
    ensures StoredSound(origin, log, later)
  {
    hide Known, AnsweredRight, UnderWay, Intercepted;
  }

  /** One pending write carried out. */
  lemma OneMoreStored(origin: string, log: Log, scene: Scene, put: Put, id: nat)
    requires Sound(origin, log, scene) && CACHE_NAME in scene.caches && Known(origin, log, put.url, put.response)
    ensures
      var cache := scene.caches[CACHE_NAME][put.url := put.response];
      StoredSound(origin, log, scene.(caches := scene.caches[CACHE_NAME := cache], puts := scene.puts - {id}))
  {
    hide Known, AnsweredRight, UnderWay, Intercepted;
  }

  lemma JustFetched(origin: string, log: Log, id: nat, url: Url, response: Response)
    requires FetchedBy(origin, log, id, url, response)
    ensures Known(origin, log, url, response)
  {
  }

  // ── The worker ──

  /** The first cache in order that has the address. */
  function MatchIn(names: seq<string>, caches: map<string, Cache>, url: Url): (found: Option<Response>)
    ensures found.Some? ==>
              exists name ::
                name in names && name in caches && url in caches[name] && caches[name][url] == found.value
    ensures found.None? ==> forall name :: name in names && name in caches ==> url !in caches[name]
  {
    if names == [] then None
    else if names[0] in caches && url in caches[names[0]] then Some(caches[names[0]][url])
    else MatchIn(names[1..], caches, url)
  }

  class ServiceWorker {
    const origin: string
    // Cache names in the order they are searched; a name without a key has been deleted.
    var names: seq<string>
    var caches: map<string, Cache>
    var flights: map<nat, Flight>
    // Writes nobody waits for, by the request that started them.
    var puts: map<nat, Put>
    var answers: map<nat, Answer>
    ghost var log: Log

    ghost predicate Valid()
      reads this
    {
      Sound(origin, log, Now())
    }

    function Now(): Scene
      reads this
    {
      Scene(caches, puts, flights, answers)
    }

    constructor (origin: string, names: seq<string>, caches: map<string, Cache>)
      ensures Valid() && this.origin == origin && this.names == names && this.caches == caches
      ensures log
          == Log(map[], map[], set name, url | name in caches && url in caches[name] :: (url, caches[name][url]))
      ensures answers == map[] && puts == map[] && flights == map[]
    {
      this.origin, this.names, this.caches := origin, names, caches;
      flights, puts, answers := map[], map[], map[];
      log := Log(map[], map[], set name, url | name in caches && url in caches[name] :: (url, caches[name][url]));
    }

    /** A request arrives: left to the browser, or taken over. */
    method Dispatch(id: nat, request: Request)
      requires Valid() && id !in log.requests
      modifies this
      ensures Valid()
      ensures log == old(log).(requests := old(log).requests[id := request])
      ensures caches == old(caches) && names == old(names) && puts == old(puts) && answers == old(answers)
      ensures flights == if Intercepted(origin, request)
                         then old(flights)[id := Flight(request, FirstPhase(request))]
                         else old(flights)
    {
      hide IsAsset, StartsWith, Consistent;
      UnusedNumber(id);
      log := log.(requests := log.requests[id := request]);
      ConsistentGrows(origin, old(log), log, Now());
      var url := request.url;
      if StartsWith(url.path, "/api/") || !request.get || !url.https {
        return;
      }
      if url.origin != origin {
        return;
      }
      if IsAsset(url.path) {
        SoundWithFlight(origin, log, Now(), id, Flight(request, AssetLookup));
        flights := flights[id := Flight(request, AssetLookup)];
        return;
      }
      if !request.navigate {
        return;
      }
      SoundWithFlight(origin, log, Now(), id, Flight(request, PageFetch));
      flights := flights[id := Flight(request, PageFetch)];
    }

    /** A number not seen before belongs to nothing yet. */
    lemma UnusedNumber(id: nat)
      requires Valid() && id !in log.requests
      ensures id !in flights && id !in answers && id !in log.replies
    {
    }

    /** A cache lookup resolves: an asset falls through to the network, a page to the shell, the shell to nothing. */
    method Lookup(id: nat)
      requires Valid() && id in flights && !flights[id].phase.AssetFetch? && !flights[id].phase.PageFetch?
      modifies this
      ensures Valid()
      ensures log == old(log) && caches == old(caches) && names == old(names) && puts == old(puts)
      ensures
        var flight := old(flights)[id];
        var found := MatchIn(names, caches, if flight.phase.ShellLookup? then ShellUrl(origin) else flight.request.url);
        if found.Some? then flights == old(flights) - {id} && answers == old(answers)[id := Cached(found.value)]
        else if flight.phase.ShellLookup? then flights == old(flights) - {id}
            && answers == old(answers)[id := NetworkError]
        else && answers == old(answers)
             && flights
                 == old(flights)[id := flight.(phase := if flight.phase.AssetLookup? then AssetFetch else ShellLookup)]
    {
      hide IsAsset, Known, Intercepted, Consistent;
      var flight := flights[id];
      FlightFacts(id);
      var found := MatchIn(names, caches, if flight.phase.ShellLookup? then ShellUrl(origin) else flight.request.url);
      if found.Some? {
        SoundWithAnswer(origin, log, Now(), id, Cached(found.value));
        flights := flights - {id};
        answers := answers[id := Cached(found.value)];
      } else if flight.phase.ShellLookup? {
        SoundWithAnswer(origin, log, Now(), id, NetworkError);
        flights := flights - {id};
        answers := answers[id := NetworkError];
      } else {
        var next := flight.(phase := if flight.phase.AssetLookup? then AssetFetch else ShellLookup);
        SoundWithFlight(origin, log, Now(), id, next);
        flights := flights[id := next];
      }
    }

    lemma FlightFacts(id: nat)
      requires Valid() && id in flights
      ensures id !in answers && UnderWay(origin, log, id, flights[id])
      ensures forall name, url :: name in caches && url in caches[name] ==> Known(origin, log, url, caches[name][url])
    {
    }

    /**
     * The network replies or fails. A reply is the answer at once; a full one is also written to the cache some time
     * later.
     */
    method Reply(id: nat, reply: Option<Response>)
      requires Valid() && id in flights && (flights[id].phase.AssetFetch? || flights[id].phase.PageFetch?)
      modifies this
      ensures Valid()
      ensures log == old(log).(replies := old(log).replies[id := reply])
      ensures caches == old(caches) && names == old(names)
      ensures puts == if reply.Some? && reply.value.status == 200
                      then old(puts)[id := Put(old(flights)[id].request.url, reply.value)] else old(puts)
      ensures
        var flight := old(flights)[id];
        if reply.Some? then flights == old(flights) - {id} && answers == old(answers)[id := Fresh(reply.value)]
        else if flight.phase.AssetFetch? then flights == old(flights) - {id}
            && answers == old(answers)[id := GatewayTimeout]
        else flights == old(flights)[id := flight.(phase := PageLookup)] && answers == old(answers)
    {
      hide IsAsset, Intercepted, Consistent, Known;
      var flight := flights[id];
      FlightFacts(id);
      log := log.(replies := log.replies[id := reply]);
      flights := flights - {id};
      assert flights - {id} == flights;
      ConsistentWithout(origin, old(log), old(Now()), id);
      ConsistentGrows(origin, old(log), log, Now());
      if reply.Some? {
        if reply.value.status == 200 {
          JustFetched(origin, log, id, flight.request.url, reply.value);
          ConsistentWithPut(origin, log, Now(), id, Put(flight.request.url, reply.value));
          puts := puts[id := Put(flight.request.url, reply.value)];
        }
        SoundWithAnswer(origin, log, Now(), id, Fresh(reply.value));
        answers := answers[id := Fresh(reply.value)];
      } else if flight.phase.AssetFetch? {
        SoundWithAnswer(origin, log, Now(), id, GatewayTimeout);
        answers := answers[id := GatewayTimeout];
      } else {
        SoundWithFlight(origin, log, Now(), id, flight.(phase := PageLookup));
        flights := flights[id := flight.(phase := PageLookup)];
      }
    }

    method OpenCache()
      requires Valid()
      modifies this`names, this`caches
      ensures Valid() && CACHE_NAME in caches
      ensures caches == if CACHE_NAME in old(caches) then old(caches) else old(caches)[CACHE_NAME := map[]]
      ensures CACHE_NAME in old(caches) ==> names == old(names)
    {
      if CACHE_NAME !in caches {
        names, caches := names + [CACHE_NAME], caches[CACHE_NAME := map[]];
      }
    }

    /** A started write lands, in whatever order. */
    method LandPut(id: nat)
      requires Valid() && id in puts
      modifies this
      ensures Valid()
      ensures log == old(log) && flights == old(flights) && answers == old(answers) && puts == old(puts) - {id}
      ensures
        var put := old(puts)[id];
        var before := if CACHE_NAME in old(caches) then old(caches)[CACHE_NAME] else map[];
        caches == old(caches)[CACHE_NAME := before[put.url := put.response]]
    {
      hide Known, AnsweredRight, UnderWay, Sound;
      var put := puts[id];
      PutFacts(id);
      OpenCache();
      var caches' := caches[CACHE_NAME := caches[CACHE_NAME][put.url := put.response]];
      OneMoreStored(origin, log, Now(), put, id);
      SoundWithStores(origin, log, Now(), Now().(caches := caches', puts := puts - {id}));
      caches, puts := caches', puts - {id};
    }

    lemma PutFacts(id: nat)
      requires Valid() && id in puts
      ensures Known(origin, log, puts[id].url, puts[id].response)
    {
    }

    /** A started write is refused, or the worker is shut down first. */
    method DropPut(id: nat)
      requires Valid() && id in puts
      modifies this`puts
      ensures Valid() && puts == old(puts) - {id}
    {
      hide Known, AnsweredRight, UnderWay, Sound;
      FewerStored(origin, log, Now(), Now().(puts := puts - {id}));
      SoundWithStores(origin, log, Now(), Now().(puts := puts - {id}));
      puts := puts - {id};
    }

    /** Installation stores the whole shell or, if one file is missing or partial, nothing. */
    method Install(replies: seq<Option<Response>>)
      requires Valid() && |replies| == |PRECACHE_PATHS|
      modifies this
      ensures Valid()
      ensures flights == old(flights) && answers == old(answers) && puts == old(puts)
      ensures log == old(log).(given := old(log).given + if AllFull(replies) then ShellEntries(origin, replies) else {})
      ensures CACHE_NAME in caches && forall name :: name != CACHE_NAME && name in old(caches) ==>
          name in caches && caches[name] == old(caches)[name]
      ensures var before := if CACHE_NAME in old(caches) then old(caches)[CACHE_NAME] else map[];
              caches[CACHE_NAME] == if AllFull(replies) then WithShell(origin, before, replies) else before
    {
      hide Known, Consistent, Intercepted, AnsweredRight, UnderWay;
      OpenCache();
      if AllFull(replies) {
        var shell := WithShell(origin, caches[CACHE_NAME], replies);
        var later := log.(given := log.given + ShellEntries(origin, replies));
        ConsistentGrows(origin, log, later, Now());
        ShellStored(origin, later, Now(), replies);
        SoundWithStores(origin, later, Now(), Now().(caches := caches[CACHE_NAME := shell]));
        log := later;
        caches := caches[CACHE_NAME := shell];
      }
    }

    /** Activation deletes every other cache. */
    method Activate()
      requires Valid()
      modifies this`caches
      ensures Valid()
      ensures caches == map name | name in old(caches) && name == CACHE_NAME :: old(caches)[name]
    {
      hide Known, Sound, AnsweredRight, UnderWay;
      var kept := map name | name in caches && name == CACHE_NAME :: caches[name];
      FewerStored(origin, log, Now(), Now().(caches := kept));
      SoundWithStores(origin, log, Now(), Now().(caches := kept));
      caches := kept;
    }
  }

  datatype Event =
    | Dispatched(id: nat, request: Request)
    | LookedUp(id: nat)
    | Replied(id: nat, reply: Option<Response>)
    | PutLanded(id: nat)
    | PutDropped(id: nat)
    | Installed(replies: seq<Option<Response>>)
    | Activated

  /** Every sequence of events whatever; one that cannot happen in the state it meets is skipped. */
  method Serve(worker: ServiceWorker, events: seq<Event>)
    requires worker.Valid() && worker.log.requests == map[] && worker.log.replies == map[]
    modifies worker
    ensures worker.Valid()
    ensures forall id :: id in worker.log.requests ==>
        exists i :: 0 <= i < |events| && events[i] == Dispatched(id, worker.log.requests[id])
    ensures forall id :: id in worker.log.replies ==>
        exists i :: 0 <= i < |events| && events[i] == Replied(id, worker.log.replies[id])
    ensures forall url, response :: (url, response) in worker.log.given ==>
              || (url, response) in old(worker.log.given)
              || exists i :: 0 <= i < |events| && InstalledEntry(worker.origin, events[i], url, response)
  {
    hide Sound, AllFull, ShellEntries, WithShell, Intercepted, IsAsset, MatchIn, InstalledEntry;
    var used: set<nat> := {};
    for i := 0 to |events|
      invariant worker.Valid() && used == worker.log.requests.Keys
      invariant forall id :: id in worker.log.requests ==>
          exists j :: 0 <= j < i && events[j] == Dispatched(id, worker.log.requests[id])
      invariant forall id :: id in worker.log.replies ==>
          exists j :: 0 <= j < i && events[j] == Replied(id, worker.log.replies[id])
      invariant forall url, response :: (url, response) in worker.log.given ==>
                  || (url, response) in old(worker.log.given)
                  || exists j :: 0 <= j < i && InstalledEntry(worker.origin, events[j], url, response)
    {
      match events[i]
      case Dispatched(id, request) =>
        if id !in used {
          worker.Dispatch(id, request);
          used := used + {id};
        }
      case LookedUp(id) =>
        if id in worker.flights && !worker.flights[id].phase.AssetFetch? && !worker.flights[id].phase.PageFetch? {
          worker.Lookup(id);
        }
      case Replied(id, reply) =>
        if id in worker.flights && (worker.flights[id].phase.AssetFetch? || worker.flights[id].phase.PageFetch?) {
          worker.Reply(id, reply);
        }
      case PutLanded(id) =>
        if id in worker.puts {
          worker.LandPut(id);
        }
      case PutDropped(id) =>
        if id in worker.puts {
          worker.DropPut(id);
        }
      case Installed(replies) =>
        if |replies| == |PRECACHE_PATHS| {
          worker.Install(replies);
          forall url, response | AllFull(replies) && (url, response) in ShellEntries(worker.origin, replies)
            ensures InstalledEntry(worker.origin, events[i], url, response)
          {
            TakenExactly(worker.origin, replies, url, response);
          }
          assert forall url, response :: (url, response) in worker.log.given ==>
            || InstalledEntry(worker.origin, events[i], url, response)
            || (url, response) in old(worker.log.given)
            || exists j :: 0 <= j < i && InstalledEntry(worker.origin, events[j], url, response);
        }
      case Activated =>
        worker.Activate();
    }
  }

  predicate InstalledEntry(origin: string, event: Event, url: Url, response: Response) {
    && event.Installed? && |event.replies| == |PRECACHE_PATHS|
    && (forall i :: 0 <= i < |event.replies| ==> Complete(event.replies[i]))
    && exists i :: 0 <= i < |event.replies| && event.replies[i] == Some(response)
                && url == Url(true, origin, PRECACHE_PATHS[i], "")
  }

  /** A success, and not a partial one. */
  predicate Complete(reply: Option<Response>) {
    reply.Some? && (200 <= reply.value.status <= 205 || 207 <= reply.value.status <= 299)
  }

  /** The shell is taken exactly if every file of it came complete. */
  lemma TakenExactly(origin: string, replies: seq<Option<Response>>, url: Url, response: Response)
    requires |replies| == |PRECACHE_PATHS|
    ensures AllFull(replies) <==> forall i :: 0 <= i < |replies| ==> Complete(replies[i])
    ensures AllFull(replies) && (url, response) in ShellEntries(origin, replies) ==>
              InstalledEntry(origin, Installed(replies), url, response)
  {
    if AllFull(replies) && (url, response) in ShellEntries(origin, replies) {
      var i :| 0 <= i < |replies| && (url, response) == (PrecacheUrl(origin, i), replies[i].value);
      assert replies[i] == Some(response);
    }
  }

  lemma ShellStored(origin: string, log: Log, scene: Scene, replies: seq<Option<Response>>)
    requires Sound(origin, log, scene) && CACHE_NAME in scene.caches
    requires |replies| <= |PRECACHE_PATHS| && AllFull(replies) && ShellEntries(origin, replies) <= log.given
    ensures
      var shell := WithShell(origin, scene.caches[CACHE_NAME], replies);
      StoredSound(origin, log, scene.(caches := scene.caches[CACHE_NAME := shell]))
  {
    hide Known, AnsweredRight, UnderWay, WithShell;
    ShellIsKnown(origin, log, scene.caches[CACHE_NAME], replies);
  }

  // ── What a sound state means ──

  /**
   * The worker never answers an API request, another origin's, or anything but an HTTPS GET for an asset or a
   * navigation.
   */
  lemma OnlyOwnRequestsAnswered(origin: string, log: Log, scene: Scene, id: nat)
    requires Sound(origin, log, scene) && id in log.requests
    requires StartsWith(log.requests[id].url.path, "/api/") || log.requests[id].url.origin != origin
          || !log.requests[id].get || !log.requests[id].url.https
          || (!IsAsset(log.requests[id].url.path) && !log.requests[id].navigate)
    ensures id !in scene.answers && id !in scene.flights
    ensures forall url, response :: !FetchedBy(origin, log, id, url, response)
  {
    hide IsAsset, Known;
    assert id in scene.answers ==> AnsweredRight(origin, log, id, scene.answers[id]);
    assert id in scene.flights ==> UnderWay(origin, log, id, scene.flights[id]);
  }

  /**
   * An intercepted request is under way or answered. One whose fetch succeeded has been answered, with that very
   * reply; a page got anything else only because its own fetch failed.
   */
  lemma FreshWhenOnline(origin: string, log: Log, scene: Scene, id: nat)
    requires Sound(origin, log, scene)
    ensures id in log.replies && log.replies[id].Some? ==>
        id in scene.answers && scene.answers[id] == Fresh(log.replies[id].value)
    ensures id in log.requests && Intercepted(origin, log.requests[id]) <==> id in scene.flights || id in scene.answers
    ensures id in scene.answers && !IsAsset(log.requests[id].url.path) && !scene.answers[id].Fresh? ==>
        id in log.replies && log.replies[id].None?
    ensures id in scene.answers && scene.answers[id].Cached? && IsAsset(log.requests[id].url.path) ==>
        Known(origin, log, log.requests[id].url, scene.answers[id].response)
  {
    hide IsAsset, Known, Intercepted;
    assert id in scene.answers ==> AnsweredRight(origin, log, id, scene.answers[id]);
    assert id in scene.flights ==> UnderWay(origin, log, id, scene.flights[id]);
  }

  /**
   * Whatever is cached without having been given is a full network answer to a same-origin HTTPS GET outside the API
   * for that address.
   */
  lemma CachedWasFetched(origin: string, log: Log, scene: Scene, name: string, url: Url)
    requires Sound(origin, log, scene) && name in scene.caches && url in scene.caches[name]
    requires (url, scene.caches[name][url]) !in log.given
    ensures scene.caches[name][url].status == 200 && url.https && url.origin == origin && !StartsWith(url.path, "/api/")
    ensures exists id :: id in log.requests && log.requests[id].url == url && log.requests[id].get
                      && id in log.replies && log.replies[id] == Some(scene.caches[name][url])
  {
    hide IsAsset;
    var id :| FetchedBy(origin, log, id, url, scene.caches[name][url]);
  }

  /** Every file answered with a success that is not partial. */
  predicate AllFull(replies: seq<Option<Response>>) {
    forall i :: 0 <= i < |replies| ==>
        replies[i].Some? && 200 <= replies[i].value.status < 300 && replies[i].value.status != 206
  }

  function PrecacheUrl(origin: string, i: nat): Url
    requires i < |PRECACHE_PATHS|
  {
    Url(true, origin, PRECACHE_PATHS[i], "")
  }

  function WithShell(origin: string, cache: Cache, replies: seq<Option<Response>>): Cache
    requires |replies| <= |PRECACHE_PATHS| && AllFull(replies)
  {
    if replies == [] then cache
    else
      var last := |replies| - 1;
      WithShell(origin, cache, replies[..last])[PrecacheUrl(origin, last) := replies[last].value]
  }

  function ShellEntries(origin: string, replies: seq<Option<Response>>): set<(Url, Response)>
    requires |replies| <= |PRECACHE_PATHS| && AllFull(replies)
  {
    set i | 0 <= i < |replies| :: (PrecacheUrl(origin, i), replies[i].value)
  }

  lemma {:induction false} ShellIsKnown(origin: string, log: Log, cache: Cache, replies: seq<Option<Response>>)
    requires |replies| <= |PRECACHE_PATHS| && AllFull(replies) && ShellEntries(origin, replies) <= log.given
    ensures forall url :: url in WithShell(origin, cache, replies) ==>
              || (url in cache && WithShell(origin, cache, replies)[url] == cache[url])
              || Known(origin, log, url, WithShell(origin, cache, replies)[url])
  {
    if replies != [] {
      var last := |replies| - 1;
      assert ShellEntries(origin, replies[..last]) <= ShellEntries(origin, replies) by {
        forall i | 0 <= i < last
          ensures (PrecacheUrl(origin, i), replies[..last][i].value) in ShellEntries(origin, replies)
        {
          assert replies[..last][i] == replies[i];
        }
      }
      ShellIsKnown(origin, log, cache, replies[..last]);
      assert (PrecacheUrl(origin, last), replies[last].value) in ShellEntries(origin, replies);
    }
  }
}
