/**
 * The model catalog: entries become routable records, and an index by public and upstream id that
 * agrees with the list; a failed refresh keeps or clears the snapshot; a seed rebuilds it.
 */
module Catalog {
  import opened Wire
  import opened Folds

  datatype Override = Override(protocol: string, endpoint: string)

  /** The part of the configuration the catalog depends on; `escapes` judges a joined URL's authority. */
  datatype Config = Config(
    prefix: string, baseUrl: string, overrides: map<string, Override>, staleWhileUnavailable: bool, escapes: (string, string) -> bool)

  datatype RawThinking = RawThinking(min: Option<int>, max: Option<int>, zeroAllowed: Option<bool>, dynamicAllowed: Option<bool>, levels: seq<string>)

  datatype Thinking = Thinking(min: int, max: int, zeroAllowed: bool, dynamicAllowed: bool, levels: seq<string>)

  datatype RawModel = RawModel(
    id: string, displayName: string, contextLength: int, maxOutput: int,
    inputModes: seq<string>, outputModes: seq<string>, inputModalities: seq<string>, outputModalities: seq<string>,
    thinking: Option<RawThinking>)

  datatype Record = Record(
    publicId: string, upstreamId: string, displayName: string, protocol: string, endpoint: string,
    contextLimit: int, outputLimit: int, inputModes: seq<string>, outputModes: seq<string>, thinking: Option<Thinking>)

  datatype Reason = MissingId | NoRoute | EscapesHost | PublicClash(publicId: string, upstreamId: string) | UpstreamClash(publicId: string, upstreamId: string)

  datatype Rejected = Rejected(upstreamId: string, reason: Reason)

  datatype Warning = DuplicateIgnored(id: string) | Overridden(id: string, over: Override) | Clash(reason: Reason) | Drift

  // ---- routing ----

  function Lower(c: char): char {
    if 'A' <= c <= 'Z' then 'a' + (c - 'A') else c
  }

  function ToLower(s: string): string {
    seq(|s|, i requires 0 <= i < |s| => Lower(s[i]))
  }

  const FamilyRoutes := [
    ("muse-spark", "responses"), ("deepseek", "chat-completions"), ("minimax", "messages"), ("longcat", "chat-completions"),
    ("grok", "responses"), ("gpt", "responses"), ("kimi", "chat-completions"), ("qwen", "messages"),
    ("glm", "chat-completions"), ("mimo", "chat-completions"), ("hy", "chat-completions")]

  function FirstFamily(id: string, routes: seq<(string, string)>): Option<string>
    decreases |routes|
  {
    if routes == [] then None
    else if HasPrefix(id, routes[0].0) then Some(routes[0].1)
    else FirstFamily(id, routes[1..])
  }

  /** A user override first, then the family table; the endpoint is empty unless an override gives one. */
  function Resolve(cfg: Config, e: RawModel): Option<Override> {
    if e.id in cfg.overrides then Some(cfg.overrides[e.id])
    else
      var family := FirstFamily(ToLower(e.id), FamilyRoutes);
      if family.Some? then Some(Override(family.value, "")) else None
  }

  function EndpointPath(route: string): string {
    if route == "chat-completions" then "/v1/chat/completions"
    else if route == "messages" then "/v1/messages"
    else if route == "responses" then "/v1/responses"
    else ""
  }

  function PublicId(cfg: Config, upstreamId: string): string {
    if cfg.prefix != "" then cfg.prefix + "/" + upstreamId else upstreamId
  }

  lemma PublicIdInjective(cfg: Config, a: string, b: string)
    requires PublicId(cfg, a) == PublicId(cfg, b)
    ensures a == b
  {
    if cfg.prefix != "" {
      var n := |cfg.prefix| + 1;
      assert PublicId(cfg, a)[n..] == a && PublicId(cfg, b)[n..] == b;
    }
  }

  function FirstNonEmpty(a: seq<string>, b: seq<string>): seq<string> {
    if a != [] then a else b
  }

  function NormalThinking(rt: Option<RawThinking>): Option<Thinking> {
    match rt
    case None => None
    case Some(t) => Some(Thinking(OrZero(t.min), OrZero(t.max), t.zeroAllowed == Some(true), t.dynamicAllowed == Some(true), t.levels))
  }

  function RecordOf(cfg: Config, e: RawModel, route: Override): Record {
    Record(PublicId(cfg, e.id), e.id, if e.displayName != "" then e.displayName else e.id, route.protocol,
           if route.endpoint != "" then route.endpoint else EndpointPath(route.protocol),
           e.contextLength, e.maxOutput, FirstNonEmpty(e.inputModes, e.inputModalities),
           FirstNonEmpty(e.outputModes, e.outputModalities), NormalThinking(e.thinking))
  }

  // ---- one entry ----

  datatype Snapshot = Snapshot(models: seq<Record>, index: map<string, Record>, unsup: seq<Rejected>, warns: seq<Warning>, seen: set<string>)

  function Exclude(s: Snapshot, id: string, reason: Reason): Snapshot {
    s.(unsup := s.unsup + [Rejected(id, reason)])
  }

  /** A record that passed all checks but the keys'. */
  function Claim(s: Snapshot, rec: Record): Snapshot {
    if rec.publicId in s.index then
      var r := PublicClash(rec.publicId, s.index[rec.publicId].upstreamId);
      Exclude(s.(warns := s.warns + [Clash(r)]), rec.upstreamId, r)
    else if rec.upstreamId in s.index then
      var r := UpstreamClash(s.index[rec.upstreamId].publicId, rec.upstreamId);
      Exclude(s.(warns := s.warns + [Clash(r)]), rec.upstreamId, r)
    else
      s.(models := s.models + [rec], index := s.index[rec.publicId := rec][rec.upstreamId := rec])
  }

  /** A routed entry: its endpoint must stay on the configured host. */
  function Admit(cfg: Config, s: Snapshot, e: RawModel, route: Override): Snapshot {
    if route.endpoint != "" && cfg.escapes(cfg.baseUrl, route.endpoint) then Exclude(s, e.id, EscapesHost)
    else Claim(s, RecordOf(cfg, e, route))
  }

  function Enter(cfg: Config, s: Snapshot, e: RawModel): Snapshot {
    if e.id == "" then Exclude(s, "", MissingId)
    else if e.id in s.seen then s.(warns := s.warns + [DuplicateIgnored(e.id)])
    else
      var s1 := s.(seen := s.seen + {e.id},
                   warns := s.warns + if e.id in cfg.overrides then [Overridden(e.id, cfg.overrides[e.id])] else []);
      match Resolve(cfg, e)
      case None => Exclude(s1, e.id, NoRoute)
      case Some(route) => Admit(cfg, s1, e, route)
  }

  function Build(cfg: Config, entries: seq<RawModel>, extra: seq<Warning>): Snapshot
    decreases |entries|
  {
    if entries == [] then Snapshot([], map[], [], extra, {})
    else Enter(cfg, Build(cfg, entries[..|entries| - 1], extra), entries[|entries| - 1])
  }

  // ---- the manager ----

  class Manager {
    const cfg: Config
    var raw: seq<RawModel>
    var models: seq<Record>
    var index: map<string, Record>
    var unsup: seq<Rejected>
    var warns: seq<Warning>

    /** The published snapshot is that of `entries`. */
    ghost predicate Publishes(entries: seq<RawModel>, extra: seq<Warning>)
      reads this
    {
      var s := Build(cfg, entries, extra);
      raw == entries && models == s.models && index == s.index && unsup == s.unsup && warns == s.warns
    }

    ghost predicate Cleared()
      reads this
    {
      raw == [] && models == [] && index == map[] && unsup == [] && warns == []
    }

    constructor (cfg: Config)
      ensures this.cfg == cfg && Cleared()
    {
      this.cfg := cfg;
      raw, models, index, unsup, warns := [], [], map[], [], [];
    }

    /** Builds the snapshot entry by entry and installs it at once. */
    method Swap(entries: seq<RawModel>, extra: seq<Warning>)
      modifies this
      ensures Publishes(entries, extra)
    {
      var s := Snapshot([], map[], [], extra, {});
      var n := 0;
      while n < |entries|
        invariant 0 <= n <= |entries|
        invariant s == Build(cfg, entries[..n], extra)
      {
        assert entries[..n + 1][..n] == entries[..n];
        s := EnterEntry(s, entries[n]);
        n := n + 1;
      }
      assert entries[..n] == entries;
      raw, models, index, unsup, warns := entries, s.models, s.index, s.unsup, s.warns;
    }

    /** The body of the loop. */
    method EnterEntry(s: Snapshot, e: RawModel) returns (r: Snapshot)
      ensures r == Enter(cfg, s, e)
    {
      r := s;
      if e.id == "" {
        r := r.(unsup := r.unsup + [Rejected("", MissingId)]);
        return;
      }
      if e.id in r.seen {
        r := r.(warns := r.warns + [DuplicateIgnored(e.id)]);
        return;
      }
      r := r.(seen := r.seen + {e.id});
      if e.id in cfg.overrides {
        r := r.(warns := r.warns + [Overridden(e.id, cfg.overrides[e.id])]);
      } else {
        assert r.warns + [] == r.warns;
      }
      var route := Resolve(cfg, e);
      if route.None? {
        r := r.(unsup := r.unsup + [Rejected(e.id, NoRoute)]);
        return;
      }
      if route.value.endpoint != "" && cfg.escapes(cfg.baseUrl, route.value.endpoint) {
        r := r.(unsup := r.unsup + [Rejected(e.id, EscapesHost)]);
        return;
      }
      r := Claim(r, RecordOf(cfg, e, route.value));
    }

    /** A failed refresh: the stale policy decides whether the snapshot survives. */
    method Fail()
      modifies this
      ensures if cfg.staleWhileUnavailable
              then raw == old(raw) && models == old(models) && index == old(index) && unsup == old(unsup) && warns == old(warns)
              else Cleared()
    {
      if !cfg.staleWhileUnavailable {
        raw, models, index, unsup, warns := [], [], map[], [], [];
      }
    }

    /** Rebuilds another manager's entries under this manager's own configuration. */
    method SeedFrom(prev: Manager)
      modifies this
      ensures Publishes(old(prev.raw), [])
    {
      Swap(prev.raw, []);
    }

    method Lookup(id: string) returns (r: Option<Record>)
      ensures r == if id in index then Some(index[id]) else None
    {
      if id in index {
        return Some(index[id]);
      }
      r := None;
    }
  }

  // ---- the index agrees with the list ----

  predicate Claims(rec: Record, key: string) {
    key == rec.publicId || key == rec.upstreamId
  }

  predicate Disjoint(a: Record, b: Record) {
    a.publicId != b.publicId && a.publicId != b.upstreamId && a.upstreamId != b.publicId && a.upstreamId != b.upstreamId
  }

  predicate Named(cfg: Config, s: Snapshot) {
    forall i :: 0 <= i < |s.models| ==> s.models[i].publicId == PublicId(cfg, s.models[i].upstreamId) && s.models[i].upstreamId in s.seen
  }

  predicate Agrees(s: Snapshot) {
    && (forall i :: 0 <= i < |s.models| ==>
          && s.models[i].publicId in s.index && s.index[s.models[i].publicId] == s.models[i]
          && s.models[i].upstreamId in s.index && s.index[s.models[i].upstreamId] == s.models[i])
    && (forall k :: k in s.index ==> s.index[k] in s.models && Claims(s.index[k], k))
    && (forall i, j :: 0 <= i < j < |s.models| ==> Disjoint(s.models[i], s.models[j]))
  }

  lemma ClaimAgrees(cfg: Config, s: Snapshot, rec: Record)
    requires Agrees(s) && Named(cfg, s) && rec.publicId == PublicId(cfg, rec.upstreamId) && rec.upstreamId in s.seen
    ensures Agrees(Claim(s, rec)) && Named(cfg, Claim(s, rec))
  {
    var t := Claim(s, rec);
    if rec.publicId !in s.index && rec.upstreamId !in s.index {
      assert t.models[|s.models|] == rec;
      forall k | k in t.index ensures t.index[k] in t.models && Claims(t.index[k], k) {
        if k != rec.publicId && k != rec.upstreamId {
          assert t.index[k] == s.index[k];
        }
      }
      NewIsDisjoint(s, rec);
    }
  }

  /** A record whose keys are free shares none with the listed models. */
  lemma NewIsDisjoint(s: Snapshot, rec: Record)
    requires Agrees(s) && rec.publicId !in s.index && rec.upstreamId !in s.index
    ensures forall i :: 0 <= i < |s.models| ==> Disjoint(s.models[i], rec)
  {
    forall i | 0 <= i < |s.models| ensures Disjoint(s.models[i], rec) {
      assert s.models[i].publicId in s.index && s.models[i].upstreamId in s.index;
    }
  }

  lemma EnterAgrees(cfg: Config, s: Snapshot, e: RawModel)
    requires Agrees(s) && Named(cfg, s)
    ensures Agrees(Enter(cfg, s, e)) && Named(cfg, Enter(cfg, s, e))
  {
    if e.id != "" && e.id !in s.seen {
      var s1 := s.(seen := s.seen + {e.id},
                   warns := s.warns + if e.id in cfg.overrides then [Overridden(e.id, cfg.overrides[e.id])] else []);
      var route := Resolve(cfg, e);
      if route.Some? {
        ClaimAgrees(cfg, s1, RecordOf(cfg, e, route.value));
      }
    }
  }

  lemma {:induction false} BuildAgrees(cfg: Config, entries: seq<RawModel>, extra: seq<Warning>)
    ensures Agrees(Build(cfg, entries, extra)) && Named(cfg, Build(cfg, entries, extra))
    decreases |entries|
  {
    if entries != [] {
      BuildAgrees(cfg, entries[..|entries| - 1], extra);
      EnterAgrees(cfg, Build(cfg, entries[..|entries| - 1], extra), entries[|entries| - 1]);
    }
  }

  /**
   * After a rebuild a key resolves exactly when some listed model has it as public or upstream id,
   * and then to that model, which is the only one that has it.
   */
  lemma {:induction false} LookupIffListed(cfg: Config, entries: seq<RawModel>, extra: seq<Warning>, key: string)
    ensures var s := Build(cfg, entries, extra);
            && (key in s.index <==> Listed(s.models, key))
            && (forall i :: 0 <= i < |s.models| && Claims(s.models[i], key) ==> s.index[key] == s.models[i])
            && (forall i, j :: 0 <= i < |s.models| && 0 <= j < |s.models| && Claims(s.models[i], key) && Claims(s.models[j], key) ==> i == j)
  {
    BuildAgrees(cfg, entries, extra);
    var s := Build(cfg, entries, extra);
    if key in s.index {
      var i :| 0 <= i < |s.models| && s.models[i] == s.index[key];
      assert Claims(s.models[i], key);
    }
    OneClaimant(s, key);
  }

  /** No two listed models have a key in common. */
  lemma OneClaimant(s: Snapshot, key: string)
    requires Agrees(s)
    ensures forall i, j :: 0 <= i < |s.models| && 0 <= j < |s.models| && Claims(s.models[i], key) && Claims(s.models[j], key) ==> i == j
  {
    forall i, j | 0 <= i < |s.models| && 0 <= j < |s.models| && Claims(s.models[i], key) && Claims(s.models[j], key) ensures i == j {
      if i != j {
        ClaimedOnce(s, if i < j then i else j, if i < j then j else i, key);
      }
    }
  }

  lemma ClaimedOnce(s: Snapshot, i: nat, j: nat, key: string)
    requires Agrees(s) && i < j < |s.models|
    ensures !(Claims(s.models[i], key) && Claims(s.models[j], key))
  {
    assert Disjoint(s.models[i], s.models[j]);
  }

  // ---- contested keys ----

  lemma ClaimKeeps(s: Snapshot, rec: Record, key: string)
    requires key in s.index
    ensures key in Claim(s, rec).index && Claim(s, rec).index[key] == s.index[key]
  {
  }

  /** The first accepted claimant keeps a key, whatever entries follow. */
  lemma {:induction false} FirstClaimantKeeps(cfg: Config, entries: seq<RawModel>, n: nat, extra: seq<Warning>, key: string)
    requires n <= |entries| && key in Build(cfg, entries[..n], extra).index
    ensures var s := Build(cfg, entries, extra);
            key in s.index && s.index[key] == Build(cfg, entries[..n], extra).index[key]
    decreases |entries|
  {
    if n == |entries| {
      assert entries[..n] == entries;
    } else {
      var before, e := entries[..|entries| - 1], entries[|entries| - 1];
      assert before[..n] == entries[..n];
      FirstClaimantKeeps(cfg, before, n, extra, key);
      var s := Build(cfg, before, extra);
      if e.id != "" && e.id !in s.seen && Resolve(cfg, e).Some? {
        var s1 := s.(seen := s.seen + {e.id},
                     warns := s.warns + if e.id in cfg.overrides then [Overridden(e.id, cfg.overrides[e.id])] else []);
        ClaimKeeps(s1, RecordOf(cfg, e, Resolve(cfg, e).value), key);
      }
    }
  }

  /**
   * Two records never clash in the same role: when a new id's public key is taken, its holder holds it
   * as its upstream id only, and when its upstream key is taken, its holder holds it as its public id only.
   */
  lemma {:induction false} ClashesAreCrossRole(cfg: Config, entries: seq<RawModel>, extra: seq<Warning>, id: string)
    requires id != "" && id !in Build(cfg, entries, extra).seen
    ensures var s := Build(cfg, entries, extra);
            && (PublicId(cfg, id) in s.index ==>
                  var holder := s.index[PublicId(cfg, id)]; holder.upstreamId == PublicId(cfg, id) && holder.publicId != PublicId(cfg, id))
            && (id in s.index ==> var holder := s.index[id]; holder.publicId == id && holder.upstreamId != id)
  {
    BuildAgrees(cfg, entries, extra);
    var s := Build(cfg, entries, extra);
    if PublicId(cfg, id) in s.index {
      var i :| 0 <= i < |s.models| && s.models[i] == s.index[PublicId(cfg, id)];
      if s.models[i].publicId == PublicId(cfg, id) {
        PublicIdInjective(cfg, s.models[i].upstreamId, id);
      }
    }
    if id in s.index {
      var i :| 0 <= i < |s.models| && s.models[i] == s.index[id];
    }
  }

  // ---- what becomes of each entry ----

  datatype Disposition = Routed(rec: Record) | Excluded(u: Rejected) | Duplicate

  function RecordsOf(ds: seq<Disposition>): seq<Record>
    decreases |ds|
  {
    if ds == [] then []
    else RecordsOf(ds[..|ds| - 1]) + if ds[|ds| - 1].Routed? then [ds[|ds| - 1].rec] else []
  }

  function ExcludedOf(ds: seq<Disposition>): seq<Rejected>
    decreases |ds|
  {
    if ds == [] then []
    else ExcludedOf(ds[..|ds| - 1]) + if ds[|ds| - 1].Excluded? then [ds[|ds| - 1].u] else []
  }

  predicate SeenBefore(entries: seq<RawModel>, id: string) {
    exists i :: 0 <= i < |entries| && entries[i].id == id
  }

  /** The record, if any, that holds a key among earlier dispositions. */
  predicate Taken(ds: seq<Disposition>, key: string) {
    exists i :: 0 <= i < |ds| && ds[i].Routed? && Claims(ds[i].rec, key)
  }

  /** The character is the given one of a route prefix, or its capital. */
  predicate Like(c: char, p: char) {
    c == p || ('a' <= p <= 'z' && 'A' <= c <= 'Z' && c - 'A' == p - 'a')
  }

  /** The id starts with the prefix, in either case. */
  predicate StartsLike(id: string, prefix: string) {
    |prefix| <= |id| && forall i :: 0 <= i < |prefix| ==> Like(id[i], prefix[i])
  }

  /** Family `i` is the first of the table whose prefix the id has. */
  predicate FamilyIs(routes: seq<(string, string)>, id: string, i: int) {
    0 <= i < |routes| && StartsLike(id, routes[i].0) && forall j :: 0 <= j < i ==> !StartsLike(id, routes[j].0)
  }

  predicate NoFamily(routes: seq<(string, string)>, id: string) {
    forall i :: 0 <= i < |routes| ==> !StartsLike(id, routes[i].0)
  }

  /** Neither an override nor a family routes the id. */
  predicate Unrouted(cfg: Config, id: string) {
    id !in cfg.overrides && NoFamily(FamilyRoutes, id)
  }

  /** The route an id is to take: its override's, else its family's protocol. */
  ghost predicate Takes(cfg: Config, id: string, route: Override) {
    if id in cfg.overrides then route == cfg.overrides[id]
    else route.endpoint == "" && exists i :: FamilyIs(FamilyRoutes, id, i) && route.protocol == FamilyRoutes[i].1
  }

  /** The path a protocol is served under. */
  predicate PathOf(protocol: string, path: string) {
    && (protocol == "chat-completions" ==> path == "/v1/chat/completions")
    && (protocol == "messages" ==> path == "/v1/messages")
    && (protocol == "responses" ==> path == "/v1/responses")
    && (protocol !in {"chat-completions", "messages", "responses"} ==> path == "")
  }

  /** The record says of the entry what the entry says, under the public id and the route. */
  predicate Describes(cfg: Config, e: RawModel, route: Override, rec: Record) {
    && rec.upstreamId == e.id && rec.publicId == (if cfg.prefix == "" then e.id else cfg.prefix + "/" + e.id)
    && rec.protocol == route.protocol && (if route.endpoint != "" then rec.endpoint == route.endpoint else PathOf(rec.protocol, rec.endpoint))
    && (e.displayName != "" ==> rec.displayName == e.displayName) && (e.displayName == "" ==> rec.displayName == e.id)
    && rec.contextLimit == e.contextLength && rec.outputLimit == e.maxOutput
    && (e.inputModes != [] ==> rec.inputModes == e.inputModes) && (e.inputModes == [] ==> rec.inputModes == e.inputModalities)
    && (e.outputModes != [] ==> rec.outputModes == e.outputModes) && (e.outputModes == [] ==> rec.outputModes == e.outputModalities)
    && ThinksAs(e.thinking, rec.thinking)
  }

  /** Absent thinking stays absent; absent limits are zero and absent permissions are none. */
  predicate ThinksAs(raw: Option<RawThinking>, t: Option<Thinking>) {
    if raw.None? then t.None?
    else
      && t.Some? && t.value.levels == raw.value.levels
      && (raw.value.min.Some? ==> t.value.min == raw.value.min.value) && (raw.value.min.None? ==> t.value.min == 0)
      && (raw.value.max.Some? ==> t.value.max == raw.value.max.value) && (raw.value.max.None? ==> t.value.max == 0)
      && (t.value.zeroAllowed <==> raw.value.zeroAllowed == Some(true))
      && (t.value.dynamicAllowed <==> raw.value.dynamicAllowed == Some(true))
  }

  /** `holder` is a record among earlier dispositions that holds the key. */
  predicate Holds(ds: seq<Disposition>, key: string, holder: Record) {
    exists i :: 0 <= i < |ds| && ds[i] == Routed(holder) && Claims(holder, key)
  }

  /** What a routed entry deserves: its own record, unless its endpoint leaves the host or a key is held. */
  ghost predicate DeservesRoute(cfg: Config, ds: seq<Disposition>, e: RawModel, route: Override, d: Disposition) {
    if route.endpoint != "" && cfg.escapes(cfg.baseUrl, route.endpoint) then d == Excluded(Rejected(e.id, EscapesHost))
    else if Taken(ds, PublicId(cfg, e.id)) then
      exists holder :: Holds(ds, PublicId(cfg, e.id), holder) && d == Excluded(Rejected(e.id, PublicClash(PublicId(cfg, e.id), holder.upstreamId)))
    else if Taken(ds, e.id) then
      exists holder :: Holds(ds, e.id, holder) && d == Excluded(Rejected(e.id, UpstreamClash(holder.publicId, e.id)))
    else d.Routed? && Describes(cfg, e, route, d.rec)
  }

  /** What an entry deserves, given only the entries before it and what became of them. */
  ghost predicate Deserves(cfg: Config, before: seq<RawModel>, ds: seq<Disposition>, e: RawModel, d: Disposition) {
    if e.id == "" then d == Excluded(Rejected("", MissingId))
    else if SeenBefore(before, e.id) then d.Duplicate?
    else if Unrouted(cfg, e.id) then d == Excluded(Rejected(e.id, NoRoute))
    else exists route :: Takes(cfg, e.id, route) && DeservesRoute(cfg, ds, e, route, d)
  }

  lemma LowerIsLike(c: char, p: char)
    requires !('A' <= p <= 'Z')
    ensures Lower(c) == p <==> Like(c, p)
  {
  }

  lemma PrefixIsLike(id: string, prefix: string)
    requires forall i :: 0 <= i < |prefix| ==> !('A' <= prefix[i] <= 'Z')
    ensures HasPrefix(ToLower(id), prefix) <==> StartsLike(id, prefix)
  {
    if |prefix| <= |id| {
      forall i | 0 <= i < |prefix| ensures ToLower(id)[i] == prefix[i] <==> Like(id[i], prefix[i]) {
        LowerIsLike(id[i], prefix[i]);
      }
      assert ToLower(id)[..|prefix|] == prefix <==> forall i :: 0 <= i < |prefix| ==> ToLower(id)[i] == prefix[i];
    }
  }

  predicate NoCapitals(routes: seq<(string, string)>) {
    forall i, j :: 0 <= i < |routes| && 0 <= j < |routes[i].0| ==> !('A' <= routes[i].0[j] <= 'Z')
  }

  lemma {:induction false} FirstFamilyIs(id: string, routes: seq<(string, string)>) returns (i: nat)
    requires NoCapitals(routes)
    ensures var r := FirstFamily(ToLower(id), routes);
            if r.Some? then FamilyIs(routes, id, i) && r.value == routes[i].1 else NoFamily(routes, id)
    decreases |routes|
  {
    i := 0;
    if routes != [] {
      PrefixIsLike(id, routes[0].0);
      if !StartsLike(id, routes[0].0) {
        var rest := routes[1..];
        assert forall k :: 0 <= k < |rest| ==> rest[k] == routes[k + 1];
        var k := FirstFamilyIs(id, rest);
        i := k + 1;
        assert forall j :: 0 < j < |routes| ==> routes[j] == rest[j - 1];
      }
    }
  }

  lemma TableIsLowerCase()
    ensures NoCapitals(FamilyRoutes)
  {
  }

  lemma ResolveIs(cfg: Config, e: RawModel)
    ensures Resolve(cfg, e).None? <==> Unrouted(cfg, e.id)
    ensures Resolve(cfg, e).Some? ==> Takes(cfg, e.id, Resolve(cfg, e).value)
  {
    TableIsLowerCase();
    var i := FirstFamilyIs(e.id, FamilyRoutes);
  }

  lemma RecordIs(cfg: Config, e: RawModel, route: Override)
    ensures Describes(cfg, e, route, RecordOf(cfg, e, route))
  {
  }

  /** The disposition `Enter` makes. */
  function DispositionOf(cfg: Config, s: Snapshot, e: RawModel): Disposition {
    var t := Enter(cfg, s, e);
    if |t.models| > |s.models| then Routed(t.models[|t.models| - 1])
    else if |t.unsup| > |s.unsup| then Excluded(t.unsup[|t.unsup| - 1])
    else Duplicate
  }

  function DispositionAt(cfg: Config, entries: seq<RawModel>, extra: seq<Warning>, k: nat): Disposition
    requires k < |entries|
  {
    DispositionOf(cfg, Build(cfg, entries[..k], extra), entries[k])
  }

  function Dispositions(cfg: Config, entries: seq<RawModel>, extra: seq<Warning>): (ds: seq<Disposition>)
    ensures |ds| == |entries|
  {
    seq(|entries|, k requires 0 <= k < |entries| => DispositionAt(cfg, entries, extra, k))
  }

  lemma EnterShape(cfg: Config, s: Snapshot, e: RawModel)
    ensures var t, d := Enter(cfg, s, e), DispositionOf(cfg, s, e);
            && t.models == s.models + (if d.Routed? then [d.rec] else [])
            && t.unsup == s.unsup + (if d.Excluded? then [d.u] else [])
            && t.seen == s.seen + (if e.id != "" then {e.id} else {})
  {
    assert s.models + [] == s.models && s.unsup + [] == s.unsup;
    if e.id != "" && e.id !in s.seen {
      var s1 := s.(seen := s.seen + {e.id},
                   warns := s.warns + if e.id in cfg.overrides then [Overridden(e.id, cfg.overrides[e.id])] else []);
      var route := Resolve(cfg, e);
      if route.Some? {
        ClaimShape(s1, RecordOf(cfg, e, route.value));
      }
    }
  }

  /** A claim lists the record, or excludes it and says why. */
  lemma ClaimShape(s: Snapshot, rec: Record)
    ensures var t := Claim(s, rec);
            && t.seen == s.seen
            && (if rec.publicId in s.index || rec.upstreamId in s.index then t.models == s.models && |t.unsup| == |s.unsup| + 1 && s.unsup <= t.unsup
                else t.models == s.models + [rec] && t.unsup == s.unsup)
  {
  }

  ghost predicate Tallied(s: Snapshot, entries: seq<RawModel>, ds: seq<Disposition>) {
    && s.models == RecordsOf(ds) && s.unsup == ExcludedOf(ds)
    && (forall id :: id in s.seen <==> id != "" && SeenBefore(entries, id))
  }

  lemma SeenNext(entries: seq<RawModel>, e: RawModel, id: string)
    ensures SeenBefore(entries + [e], id) <==> SeenBefore(entries, id) || e.id == id
  {
    var all := entries + [e];
    assert all[|entries|] == e && forall i :: 0 <= i < |entries| ==> all[i] == entries[i];
  }

  lemma TalliedNext(cfg: Config, s: Snapshot, entries: seq<RawModel>, ds: seq<Disposition>, e: RawModel)
    requires Tallied(s, entries, ds)
    ensures Tallied(Enter(cfg, s, e), entries + [e], ds + [DispositionOf(cfg, s, e)])
  {
    EnterShape(cfg, s, e);
    var d := DispositionOf(cfg, s, e);
    assert (ds + [d])[..|ds|] == ds;
    forall id ensures SeenBefore(entries + [e], id) <==> SeenBefore(entries, id) || e.id == id {
      SeenNext(entries, e, id);
    }
  }

  lemma {:induction false} BuildTallied(cfg: Config, entries: seq<RawModel>, extra: seq<Warning>)
    ensures Tallied(Build(cfg, entries, extra), entries, Dispositions(cfg, entries, extra))
    decreases |entries|
  {
    if entries != [] {
      var n := |entries| - 1;
      BuildTallied(cfg, entries[..n], extra);
      TalliedNext(cfg, Build(cfg, entries[..n], extra), entries[..n], Dispositions(cfg, entries[..n], extra), entries[n]);
      DispositionsLast(cfg, entries, extra);
      assert entries[..n] + [entries[n]] == entries;
    }
  }

  lemma DispositionsLast(cfg: Config, entries: seq<RawModel>, extra: seq<Warning>)
    requires entries != []
    ensures var n := |entries| - 1;
            Dispositions(cfg, entries, extra) == Dispositions(cfg, entries[..n], extra) + [DispositionOf(cfg, Build(cfg, entries[..n], extra), entries[n])]
  {
    var n := |entries| - 1;
    DispositionsPrefix(cfg, entries, extra, n);
    LastDisposition(Dispositions(cfg, entries, extra), DispositionOf(cfg, Build(cfg, entries[..n], extra), entries[n]));
  }

  lemma LastDisposition(ds: seq<Disposition>, d: Disposition)
    requires ds != [] && ds[|ds| - 1] == d
    ensures ds == ds[..|ds| - 1] + [d]
  {
  }

  predicate Listed(recs: seq<Record>, key: string) {
    exists i :: 0 <= i < |recs| && Claims(recs[i], key)
  }

  lemma ListedNext(recs: seq<Record>, rec: Record, key: string)
    ensures Listed(recs + [rec], key) <==> Listed(recs, key) || Claims(rec, key)
  {
    var all := recs + [rec];
    assert all[|recs|] == rec && forall i :: 0 <= i < |recs| ==> all[i] == recs[i];
  }

  lemma TakenNext(ds: seq<Disposition>, d: Disposition, key: string)
    ensures Taken(ds + [d], key) <==> Taken(ds, key) || (d.Routed? && Claims(d.rec, key))
  {
    var all := ds + [d];
    assert all[|ds|] == d && forall i :: 0 <= i < |ds| ==> all[i] == ds[i];
  }

  lemma {:induction false} TakenIffListed(ds: seq<Disposition>, key: string)
    ensures Taken(ds, key) <==> Listed(RecordsOf(ds), key)
    decreases |ds|
  {
    if ds != [] {
      var before, d := ds[..|ds| - 1], ds[|ds| - 1];
      TakenIffListed(before, key);
      TakenNext(before, d, key);
      assert before + [d] == ds;
      if d.Routed? {
        ListedNext(RecordsOf(before), d.rec, key);
      } else {
        assert RecordsOf(before) + [] == RecordsOf(before);
      }
    }
  }

  /**
   * Every entry is exactly one of routed, excluded with a reason, or a duplicate of an earlier id, as
   * the entries before it dictate; the lists are the routed and the excluded ones in order.
   */
  lemma {:induction false} EachEntryIsDisposedOf(cfg: Config, entries: seq<RawModel>, extra: seq<Warning>, k: nat)
    requires k < |entries|
    ensures var ds := Dispositions(cfg, entries, extra);
            && Deserves(cfg, entries[..k], ds[..k], entries[k], ds[k])
            && Build(cfg, entries, extra).models == RecordsOf(ds) && Build(cfg, entries, extra).unsup == ExcludedOf(ds)
  {
    BuildTallied(cfg, entries, extra);
    DispositionsPrefix(cfg, entries, extra, k);
    var s := Build(cfg, entries[..k], extra);
    var ds := Dispositions(cfg, entries[..k], extra);
    BuildTallied(cfg, entries[..k], extra);
    TakenIffIndexed(cfg, entries[..k], extra, PublicId(cfg, entries[k].id));
    TakenIffIndexed(cfg, entries[..k], extra, entries[k].id);
    DeservesIt(cfg, s, entries[..k], ds, entries[k]);
  }

  lemma {:induction false} TakenIffIndexed(cfg: Config, entries: seq<RawModel>, extra: seq<Warning>, key: string)
    ensures var ds, index := Dispositions(cfg, entries, extra), Build(cfg, entries, extra).index;
            (Taken(ds, key) <==> key in index) && (key in index ==> Holds(ds, key, index[key]))
  {
    var ds, s := Dispositions(cfg, entries, extra), Build(cfg, entries, extra);
    BuildTallied(cfg, entries, extra);
    TakenIffListed(ds, key);
    LookupIffListed(cfg, entries, extra, key);
    if key in s.index {
      var i :| 0 <= i < |s.models| && Claims(s.models[i], key);
      ListedIsRouted(ds, i);
    }
  }

  /** Every listed record was routed. */
  lemma {:induction false} ListedIsRouted(ds: seq<Disposition>, i: nat)
    requires i < |RecordsOf(ds)|
    ensures exists k :: 0 <= k < |ds| && ds[k] == Routed(RecordsOf(ds)[i])
    decreases |ds|
  {
    var n := |ds| - 1;
    if i < |RecordsOf(ds[..n])| {
      ListedIsRouted(ds[..n], i);
      var k :| 0 <= k < n && ds[..n][k] == Routed(RecordsOf(ds[..n])[i]);
      assert ds[k] == ds[..n][k];
    } else {
      assert ds[n] == Routed(RecordsOf(ds)[i]);
    }
  }

  /** What admitting a routed entry comes to, given the index. */
  function AdmitOf(cfg: Config, index: map<string, Record>, e: RawModel, route: Override): Disposition {
    var public := PublicId(cfg, e.id);
    if route.endpoint != "" && cfg.escapes(cfg.baseUrl, route.endpoint) then Excluded(Rejected(e.id, EscapesHost))
    else if public in index then Excluded(Rejected(e.id, PublicClash(public, index[public].upstreamId)))
    else if e.id in index then Excluded(Rejected(e.id, UpstreamClash(index[e.id].publicId, e.id)))
    else Routed(RecordOf(cfg, e, route))
  }

  lemma DispositionIs(cfg: Config, s: Snapshot, e: RawModel)
    ensures DispositionOf(cfg, s, e) ==
              if e.id == "" then Excluded(Rejected("", MissingId))
              else if e.id in s.seen then Duplicate
              else if Resolve(cfg, e).None? then Excluded(Rejected(e.id, NoRoute))
              else AdmitOf(cfg, s.index, e, Resolve(cfg, e).value)
  {
  }

  lemma AdmitDeserves(cfg: Config, index: map<string, Record>, ds: seq<Disposition>, e: RawModel, route: Override)
    requires Taken(ds, PublicId(cfg, e.id)) <==> PublicId(cfg, e.id) in index
    requires Taken(ds, e.id) <==> e.id in index
    requires PublicId(cfg, e.id) in index ==> Holds(ds, PublicId(cfg, e.id), index[PublicId(cfg, e.id)])
    requires e.id in index ==> Holds(ds, e.id, index[e.id])
    ensures DeservesRoute(cfg, ds, e, route, AdmitOf(cfg, index, e, route))
  {
    RecordIs(cfg, e, route);
  }

  lemma DeservesIt(cfg: Config, s: Snapshot, before: seq<RawModel>, ds: seq<Disposition>, e: RawModel)
    requires Tallied(s, before, ds)
    requires Taken(ds, PublicId(cfg, e.id)) <==> PublicId(cfg, e.id) in s.index
    requires Taken(ds, e.id) <==> e.id in s.index
    requires PublicId(cfg, e.id) in s.index ==> Holds(ds, PublicId(cfg, e.id), s.index[PublicId(cfg, e.id)])
    requires e.id in s.index ==> Holds(ds, e.id, s.index[e.id])
    ensures Deserves(cfg, before, ds, e, DispositionOf(cfg, s, e))
  {
    DispositionIs(cfg, s, e);
    ResolveIs(cfg, e);
    if Resolve(cfg, e).Some? {
      AdmitDeserves(cfg, s.index, ds, e, Resolve(cfg, e).value);
    }
  }

  lemma DispositionAtPrefix(cfg: Config, entries: seq<RawModel>, extra: seq<Warning>, k: nat, j: nat)
    requires j < k <= |entries|
    ensures DispositionAt(cfg, entries[..k], extra, j) == DispositionAt(cfg, entries, extra, j)
  {
    assert entries[..k][..j] == entries[..j];
  }

  lemma DispositionsPrefix(cfg: Config, entries: seq<RawModel>, extra: seq<Warning>, k: nat)
    requires k <= |entries|
    ensures Dispositions(cfg, entries, extra)[..k] == Dispositions(cfg, entries[..k], extra)
  {
    var a, b := Dispositions(cfg, entries, extra)[..k], Dispositions(cfg, entries[..k], extra);
    forall j | 0 <= j < k ensures a[j] == b[j] {
      DispositionAtPrefix(cfg, entries, extra, k, j);
    }
  }

  // ---- what is listed, and what is warned of ----

  /**
   * Every listed record describes the first entry with its id: its route is the id's override, or else
   * that of the first family whose prefix starts the id in either case.
   */
  lemma {:induction false} ListedAreDescribed(cfg: Config, entries: seq<RawModel>, extra: seq<Warning>, i: nat) returns (k: nat, route: Override)
    requires i < |Build(cfg, entries, extra).models|
    ensures var rec := Build(cfg, entries, extra).models[i];
            && k < |entries| && entries[k].id == rec.upstreamId != "" && !SeenBefore(entries[..k], rec.upstreamId)
            && Takes(cfg, rec.upstreamId, route) && Describes(cfg, entries[k], route, rec)
  {
    var ds := Dispositions(cfg, entries, extra);
    BuildTallied(cfg, entries, extra);
    ListedIsRouted(ds, i);
    k :| 0 <= k < |ds| && ds[k] == Routed(Build(cfg, entries, extra).models[i]);
    EachEntryIsDisposedOf(cfg, entries, extra, k);
    route :| Takes(cfg, entries[k].id, route) && DeservesRoute(cfg, ds[..k], entries[k], route, ds[k]);
  }

  /** What an entry is warned of: a duplicate, an override that routes it, a clash that excludes it. */
  function WarningsOf(cfg: Config, e: RawModel, d: Disposition): seq<Warning> {
    if d.Duplicate? then [DuplicateIgnored(e.id)]
    else
      (if e.id != "" && e.id in cfg.overrides then [Overridden(e.id, cfg.overrides[e.id])] else [])
      + if d.Excluded? && (d.u.reason.PublicClash? || d.u.reason.UpstreamClash?) then [Clash(d.u.reason)] else []
  }

  function AllWarnings(cfg: Config, entries: seq<RawModel>, ds: seq<Disposition>): seq<Warning>
    requires |ds| == |entries|
    decreases |entries|
  {
    if entries == [] then []
    else
      var n := |entries| - 1;
      AllWarnings(cfg, entries[..n], ds[..n]) + WarningsOf(cfg, entries[n], ds[n])
  }

  lemma EnterWarns(cfg: Config, s: Snapshot, e: RawModel)
    ensures Enter(cfg, s, e).warns == s.warns + WarningsOf(cfg, e, DispositionOf(cfg, s, e))
  {
    DispositionIs(cfg, s, e);
    assert s.warns + [] == s.warns;
    if e.id != "" && e.id !in s.seen {
      var over: seq<Warning> := if e.id in cfg.overrides then [Overridden(e.id, cfg.overrides[e.id])] else [];
      var route := Resolve(cfg, e);
      assert (s.warns + over) + [] == s.warns + over && over + [] == over;
      if route.Some? {
        AdmitWarns(cfg, s.(seen := s.seen + {e.id}, warns := s.warns + over), e, route.value);
      }
    }
  }

  lemma AdmitWarns(cfg: Config, s: Snapshot, e: RawModel, route: Override)
    ensures var d := AdmitOf(cfg, s.index, e, route);
            Admit(cfg, s, e, route).warns ==
              s.warns + if d.Excluded? && (d.u.reason.PublicClash? || d.u.reason.UpstreamClash?) then [Clash(d.u.reason)] else []
  {
    assert s.warns + [] == s.warns;
  }

  /** The warnings are the caller's, then those of the entries in order. */
  lemma {:induction false} WarningsAreTold(cfg: Config, entries: seq<RawModel>, extra: seq<Warning>)
    ensures Build(cfg, entries, extra).warns == extra + AllWarnings(cfg, entries, Dispositions(cfg, entries, extra))
    decreases |entries|
  {
    if entries == [] {
      assert extra + [] == extra;
    } else {
      var n := |entries| - 1;
      var ds := Dispositions(cfg, entries, extra);
      WarningsAreTold(cfg, entries[..n], extra);
      EnterWarns(cfg, Build(cfg, entries[..n], extra), entries[n]);
      DispositionsLast(cfg, entries, extra);
      WarningsLast(cfg, entries, ds, Dispositions(cfg, entries[..n], extra));
      Assoc(extra, AllWarnings(cfg, entries[..n], ds[..n]), WarningsOf(cfg, entries[n], ds[n]));
    }
  }

  lemma WarningsLast(cfg: Config, entries: seq<RawModel>, ds: seq<Disposition>, before: seq<Disposition>)
    requires entries != [] && |ds| == |entries| && before == ds[..|ds| - 1]
    ensures AllWarnings(cfg, entries, ds) == AllWarnings(cfg, entries[..|entries| - 1], before) + WarningsOf(cfg, entries[|entries| - 1], ds[|ds| - 1])
  {
  }
}
