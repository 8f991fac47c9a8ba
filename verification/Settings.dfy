/** The stored encoder settings against the live ones: the admin update (internal/admin/handler.go, updateQualities), the
    table it writes (internal/admin/store.go, UpdateSettings) and what the server makes of that table when it starts
    (cmd/server/main.go). The table is written key by key, without a transaction, so an update can fail part-way. */
module Settings {
  import opened Text
  import opened Qualities
  import opened Ingest

  type Stored = map<string, string>

  const QUALITIES := "qualities_enabled"
  const RATES := "stream_fps"
  const PRESET := "ffmpeg_preset"

  datatype Request = Request(enabled: seq<string>, fps: Overrides, preset: string)
  datatype Status = OK | BadRequest | InternalError

  // ---- Starting ----

  function StoredQualities(table: seq<Quality>, s: Stored): seq<Quality> {
    var default := Filtered(table, Elements(DefaultQualities()));
    if QUALITIES in s && s[QUALITIES] != "" then
      var chosen := Filtered(table, Elements(Split(s[QUALITIES], ',')));
      if chosen != [] then chosen else default
    else default
  }

  function StoredOverrides(table: seq<Quality>, s: Stored): Overrides {
    DefaultOverrides(table) + if RATES in s then HDOverrides(table, Parsed(table, s[RATES])) else map[]
  }

  function StoredPreset(s: Stored): string {
    if PRESET in s && s[PRESET] in ValidPresets() then s[PRESET] else "auto"
  }

  /** The settings the server starts with. */
  function Booted(table: seq<Quality>, s: Stored): Config {
    Config(StoredQualities(table, s), StoredOverrides(table, s), StoredPreset(s))
  }

  lemma ParsedEmpty(table: seq<Quality>)
    ensures Parsed(table, "") == map[]
  {
    assert Split("", ',') == [""];
    assert ParsedParts(table, [""]) == ParsedParts(table, []);
  }

  /** With nothing stored the server starts as a new manager does. */
  lemma BootedFresh(table: seq<Quality>)
    ensures Booted(table, map[]) == Fresh(table)
  {
    assert DefaultOverrides(table) + map[] == DefaultOverrides(table);
  }

  /** What each stored setting does, by its key: a list that names no preset of the table, rates that are not for HD names
      or not 30 or 60, and a preset that is not known do nothing. */
  lemma BootedMeans(table: seq<Quality>, s: Stored)
    ensures var c, initial := Booted(table, s), Fresh(table);
            && (if "qualities_enabled" in s && s["qualities_enabled"] != "" &&
                   (exists q :: q in table && q.name in Split(s["qualities_enabled"], ','))
                then forall q :: q in c.qualities <==> q in table && q.name in Split(s["qualities_enabled"], ',')
                else c.qualities == initial.qualities)
            && (forall n :: n in c.overrides ==>
                  if "stream_fps" in s && n in Parsed(table, s["stream_fps"]) && TallName(table, n)
                  then c.overrides[n] == Parsed(table, s["stream_fps"])[n]
                  else n in initial.overrides && c.overrides[n] == initial.overrides[n])
            && (forall n :: n in initial.overrides ==> n in c.overrides)
            && c.preset == if "ffmpeg_preset" in s &&
                 s["ffmpeg_preset"] in ["auto", "ultrafast", "superfast", "veryfast", "faster", "fast", "medium"]
               then s["ffmpeg_preset"] else "auto"
  {
    if QUALITIES in s {
      FilteredAre(table, Split(s[QUALITIES], ','));
    }
    if RATES in s {
      forall n | n in Parsed(table, s[RATES]) ensures Accepted(Parsed(table, s[RATES])[n]) {
        ParsedIsSound(table, Split(s[RATES], ','), n);
      }
    }
    hide Parsed, Split, Filtered, Elements;
  }

  method IsValidPreset(p: string) returns (valid: bool)
    ensures valid <==> p in ValidPresets()
  {
    var presets := ValidPresets();
    for i := 0 to |presets|
      invariant p !in presets[..i]
    {
      if presets[i] == p {
        return true;
      }
    }
    return false;
  }

  method Boot(table: seq<Quality>, s: Stored) returns (m: Manager)
    ensures fresh(m) && m.table == table && m.Settings() == Booted(table, s)
  {
    ParsedEmpty(table);
    m := new Manager(table);
    if QUALITIES in s && s[QUALITIES] != "" {
      m.SetQualities(Split(s[QUALITIES], ','));
    }
    if RATES in s && s[RATES] != "" {
      var overrides := ParseFPSOverrides(table, s[RATES]);
      m.SetFPSOverrides(overrides);
    }
    if PRESET in s && s[PRESET] != "" {
      var valid := IsValidPreset(s[PRESET]);
      if valid {
        m.SetPreset(s[PRESET]);
      }
    }
  }

  // ---- Updating ----

  predicate Valid(table: seq<Quality>, req: Request) {
    && Filtered(table, Elements(req.enabled)) != []
    && (req.preset != "" ==> req.preset in ValidPresets())
    && (forall n :: n in req.fps ==> Accepted(req.fps[n]) && IsHDName(table, n))
  }

  /** The keys a valid request writes; rates are merged into all that are live. */
  function ToSave(table: seq<Quality>, live: Config, req: Request): Stored {
    var names := Names(Filtered(table, Elements(req.enabled)));
    var kv: Stored := map[QUALITIES := Join(names, ',')];
    var kv' := if req.fps != map[] then kv[RATES := Serialized(table, live.overrides + req.fps)] else kv;
    if req.preset != "" then kv'[PRESET := req.preset] else kv'
  }

  function Applied(table: seq<Quality>, live: Config, req: Request): Config {
    Config(Filtered(table, Elements(req.enabled)), live.overrides + req.fps,
           if req.preset != "" then req.preset else live.preset)
  }

  function Only(kv: Stored, done: set<string>): Stored { map k | k in kv && k in done :: kv[k] }

  lemma OnlyNone(kv: Stored)
    ensures Only(kv, {}) == map[]
  {
  }

  lemma OnlyMore(kv: Stored, done: set<string>, k: string)
    requires k in kv
    ensures Only(kv, done + {k}) == Only(kv, done)[k := kv[k]]
  {
  }

  class AdminStore {
    var settings: Stored

    /** Keys are written in any order; a write to one of `failing` fails, and the rest is left unwritten. */
    method UpdateSettings(kv: Stored, failing: set<string>) returns (ok: bool, ghost done: set<string>)
      modifies this
      ensures ok <==> kv.Keys !! failing
      ensures done <= kv.Keys && done !! failing && (ok ==> done == kv.Keys)
      ensures settings == old(settings) + Only(kv, done)
    {
      hide Only;
      OnlyNone(kv);
      var left := kv.Keys;
      done := {};
      while left != {}
        invariant left <= kv.Keys && done == kv.Keys - left && done !! failing
        invariant settings == old(settings) + Only(kv, done)
        decreases |left|
      {
        var k :| k in left;
        if k in failing {
          ok := false;
          return;
        }
        OnlyMore(kv, done, k);
        settings := settings[k := kv[k]];
        left, done := left - {k}, done + {k};
      }
      ok := true;
    }
  }

  method RatesValid(table: seq<Quality>, fps: Overrides) returns (valid: bool)
    requires Distinct(table)
    ensures valid <==> forall n :: n in fps ==> Accepted(fps[n]) && IsHDName(table, n)
  {
    var left := fps.Keys;
    while left != {}
      invariant left <= fps.Keys
      invariant forall n :: n in fps && n !in left ==> Accepted(fps[n]) && IsHDName(table, n)
      decreases |left|
    {
      var n :| n in left;
      if fps[n] != 30 && fps[n] != 60 {
        return false;
      }
      var q := QualityByName(table, n);
      if q.None? {
        return false;
      }
      HDByName(table, q.value);
      if !IsHD(q.value) {
        return false;
      }
      left := left - {n};
    }
    return true;
  }

  method Validate(table: seq<Quality>, req: Request) returns (ok: bool, names: seq<string>)
    requires Distinct(table)
    ensures ok <==> Valid(table, req)
    ensures ok ==> names == Names(Filtered(table, Elements(req.enabled)))
  {
    names := [];
    var valid := FilterQualities(table, req.enabled);
    if |valid| == 0 {
      return false, [];
    }
    if req.preset != "" {
      var known := IsValidPreset(req.preset);
      if !known {
        return false, [];
      }
    }
    ok := RatesValid(table, req.fps);
    names := Names(valid);
  }

  method Persist(m: Manager, store: AdminStore, req: Request, names: seq<string>, failing: set<string>)
    returns (ok: bool, ghost done: set<string>)
    requires names == Names(Filtered(m.table, Elements(req.enabled)))
    modifies store
    ensures ok <==> ToSave(m.table, m.Settings(), req).Keys !! failing
    ensures done <= ToSave(m.table, m.Settings(), req).Keys && (ok ==> done == ToSave(m.table, m.Settings(), req).Keys)
    ensures done !! failing
    ensures store.settings == old(store.settings) + Only(ToSave(m.table, m.Settings(), req), done)
  {
    hide Serialized, Join, Filtered, Elements, Only;
    var toSave: Stored := map[QUALITIES := Join(names, ',')];
    if req.fps != map[] {
      var merged := m.FPSOverrides();
      merged := merged + req.fps;
      var text := SerializeFPSOverrides(m.table, merged);
      toSave := toSave[RATES := text];
    }
    if req.preset != "" {
      toSave := toSave[PRESET := req.preset];
    }
    assert toSave == ToSave(m.table, m.Settings(), req);
    ok, done := store.UpdateSettings(toSave, failing);
  }

  lemma ValidRatesCount(table: seq<Quality>, req: Request)
    requires Valid(table, req)
    ensures HDOverrides(table, req.fps) == req.fps
  {
  }

  method Apply(m: Manager, req: Request, names: seq<string>)
    requires Valid(m.table, req) && names == Names(Filtered(m.table, Elements(req.enabled)))
    modifies m
    ensures m.Settings() == Applied(m.table, old(m.Settings()), req)
  {
    FilteredAgain(m.table, Elements(req.enabled));
    ValidRatesCount(m.table, req);
    hide Filtered, HDOverrides;
    m.SetQualities(names);
    if req.fps != map[] {
      m.SetFPSOverrides(req.fps);
    }
    if req.preset != "" {
      m.SetPreset(req.preset);
    }
  }

  /** What is asked of a request: a quality that exists, a known preset if any, and rates of 30 or 60 for HD names only. */
  ghost predicate Acceptable(table: seq<Quality>, req: Request) {
    && (exists q :: q in table && q.name in req.enabled)
    && req.preset in ["", "auto", "ultrafast", "superfast", "veryfast", "faster", "fast", "medium"]
    && (forall n :: n in req.fps ==> (req.fps[n] == 30 || req.fps[n] == 60) && TallName(table, n))
  }

  /** What was asked for, and nothing else, has changed. */
  ghost predicate Heeded(table: seq<Quality>, before: Config, req: Request, after: Config) {
    && (forall q :: q in after.qualities <==> q in table && q.name in req.enabled)
    && (forall n :: n in after.overrides <==> n in before.overrides || n in req.fps)
    && (forall n :: n in req.fps ==> after.overrides[n] == req.fps[n])
    && (forall n :: n in before.overrides && n !in req.fps ==> after.overrides[n] == before.overrides[n])
    && after.preset == if req.preset == "" then before.preset else req.preset
  }

  lemma AcceptableIsValid(table: seq<Quality>, req: Request)
    ensures Acceptable(table, req) <==> Valid(table, req)
  {
    FilteredAre(table, req.enabled);
    hide Filtered, Elements;
    assert forall n :: TallName(table, n) <==> IsHDName(table, n);
  }

  lemma AppliedHeeds(table: seq<Quality>, before: Config, req: Request)
    ensures Heeded(table, before, req, Applied(table, before, req))
  {
    FilteredAre(table, req.enabled);
    hide Filtered, Elements;
  }

  method UpdateQualities(m: Manager, store: AdminStore, req: Request, failing: set<string>)
    returns (status: Status, ghost done: set<string>)
    requires Distinct(m.table)
    modifies m, store
    ensures status == BadRequest <==> !Valid(m.table, req)
    ensures status == InternalError <==>
              Valid(m.table, req) && !(ToSave(m.table, old(m.Settings()), req).Keys !! failing)
    ensures m.Settings() == if status == OK then Applied(m.table, old(m.Settings()), req) else old(m.Settings())
    ensures store.settings == old(store.settings) + Only(ToSave(m.table, old(m.Settings()), req), done)
    ensures done !! failing && (status == BadRequest ==> done == {})
    ensures status == OK ==> done == ToSave(m.table, old(m.Settings()), req).Keys
    ensures status == BadRequest <==> !Acceptable(m.table, req)
    ensures status != OK ==> m.Settings() == old(m.Settings())
    ensures status == OK ==> Heeded(m.table, old(m.Settings()), req, m.Settings())
  {
    AcceptableIsValid(m.table, req);
    AppliedHeeds(m.table, m.Settings(), req);
    hide ToSave, Applied, Valid, Acceptable, Heeded;
    var valid, names := Validate(m.table, req);
    if !valid {
      return BadRequest, {};
    }
    var ok;
    ok, done := Persist(m, store, req, names, failing);
    if !ok {
      return InternalError, done;
    }
    Apply(m, req, names);
    return OK, done;
  }

  // ---- What is stored comes back ----

  /** A stored list of qualities comes back as the same list. */
  lemma QualitiesComeBack(table: seq<Quality>, enabled: seq<string>, s: Stored)
    requires WellFormed(table) && Filtered(table, Elements(enabled)) != []
    requires QUALITIES in s && s[QUALITIES] == Join(Names(Filtered(table, Elements(enabled))), ',')
    ensures StoredQualities(table, s) == Filtered(table, Elements(enabled))
  {
    var chosen := Filtered(table, Elements(enabled));
    var names := Names(chosen);
    forall n | n in names ensures ',' !in n && n != "" {
      var k :| 0 <= k < |chosen| && names[k] == n;
      FilteredMembers(table, Elements(enabled), chosen[k]);
    }
    SplitJoin(names, ',');
    assert names[0] in names;
    assert s[QUALITIES] != "";
    FilteredAgain(table, Elements(enabled));
  }

  /** Stored rates that cover the HD names come back as they were, over whatever the defaults are. */
  lemma RatesComeBack(table: seq<Quality>, c: Config, s: Stored)
    requires WellFormed(table) && Sound(table, c)
    requires RATES in s && s[RATES] == Serialized(table, c.overrides)
    ensures StoredOverrides(table, s) == c.overrides
  {
    ParseSerialize(table, c.overrides);
    forall n | n in c.overrides ensures Listed(table, n) && IsHDName(table, n) {
      var q :| q in table && IsHD(q) && q.name == n;
    }
    assert Restricted(table, c.overrides) == c.overrides;
    assert HDOverrides(table, c.overrides) == c.overrides;
    forall n | n in DefaultOverrides(table) ensures n in c.overrides {
      DefaultsCoverHD(table, n);
    }
  }

  lemma AppliedIsSound(table: seq<Quality>, c: Config, req: Request)
    requires Sound(table, c) && Valid(table, req)
    ensures Sound(table, Applied(table, c, req))
  {
    FilteredAgain(table, Elements(req.enabled));
  }

  lemma SavedKeys(table: seq<Quality>, c: Config, req: Request)
    ensures var kv := ToSave(table, c, req);
            && QUALITIES in kv && kv[QUALITIES] == Join(Names(Filtered(table, Elements(req.enabled))), ',')
            && (RATES in kv <==> req.fps != map[])
            && (RATES in kv ==> kv[RATES] == Serialized(table, c.overrides + req.fps))
            && (PRESET in kv <==> req.preset != "")
            && (PRESET in kv ==> kv[PRESET] == req.preset)
            && (forall k :: k in kv ==> k == "qualities_enabled" || k == "stream_fps" || k == "ffmpeg_preset")
  {
  }

  // ---- Coherence ----

  /** Starting again now would give the live settings. */
  predicate Coherent(table: seq<Quality>, s: Stored, live: Config) { Booted(table, s) == live }

  /** What the store would hold once the keys in `done` were written. */
  function Written(table: seq<Quality>, s: Stored, live: Config, req: Request, done: set<string>): Stored {
    s + Only(ToSave(table, live, req), done)
  }

  /** After any set of its keys was written, each stored setting is the request's if its key was among them and the
      request has it, and is as before otherwise. */
  lemma BootedAfterWrite(table: seq<Quality>, s: Stored, live: Config, req: Request, done: set<string>)
    requires WellFormed(table) && Sound(table, live) && Valid(table, req)
    ensures var want := Applied(table, live, req);
            Booted(table, Written(table, s, live, req, done)) ==
            Config(if QUALITIES in done then want.qualities else StoredQualities(table, s),
                   if RATES in done && req.fps != map[] then want.overrides else StoredOverrides(table, s),
                   if PRESET in done && req.preset != "" then want.preset else StoredPreset(s))
  {
    var want, s' := Applied(table, live, req), Written(table, s, live, req, done);
    SavedKeys(table, live, req);
    AppliedIsSound(table, live, req);
    if QUALITIES in done {
      QualitiesComeBack(table, req.enabled, s');
    }
    if RATES in done && req.fps != map[] {
      RatesComeBack(table, want, s');
    }
  }

  lemma BootedAfterSuccess(table: seq<Quality>, s: Stored, live: Config, req: Request)
    requires WellFormed(table) && Sound(table, live) && Valid(table, req)
    ensures var want := Applied(table, live, req);
            Booted(table, s + ToSave(table, live, req)) ==
            Config(want.qualities, if req.fps != map[] then want.overrides else StoredOverrides(table, s),
                   if req.preset != "" then want.preset else StoredPreset(s))
  {
    var all := ToSave(table, live, req);
    BootedAfterWrite(table, s, live, req, all.Keys);
    SavedKeys(table, live, req);
    hide ToSave, Valid, Sound, WellFormed, StoredQualities, StoredOverrides, StoredPreset, Applied, Booted;
    assert Only(all, all.Keys) == all;
  }

  /** A successful update leaves the two in agreement exactly when they agreed on what it did not name. So it keeps
      agreement, and one that names a preset and any frame rate restores it from any store whatever. */
  lemma CoherentAfterSuccess(table: seq<Quality>, s: Stored, live: Config, req: Request)
    requires WellFormed(table) && Sound(table, live) && Valid(table, req)
    ensures Coherent(table, s + ToSave(table, live, req), Applied(table, live, req)) <==>
            && (req.fps == map[] ==> StoredOverrides(table, s) == live.overrides)
            && (req.preset == "" ==> StoredPreset(s) == live.preset)
  {
    BootedAfterSuccess(table, s, live, req);
    hide ToSave, Valid, Sound, WellFormed, StoredQualities, StoredOverrides, StoredPreset, Filtered, Booted;
  }

  lemma MergeKeeps(base: Overrides, m: Overrides)
    ensures base + m == base <==> forall n :: n in m ==> n in base && base[n] == m[n]
  {
  }

  /** A write that fails part-way leaves the live settings alone, and keeps agreement exactly when every key it wrote
      says what is live anyway. */
  lemma CoherentAfterFailure(table: seq<Quality>, s: Stored, live: Config, req: Request, done: set<string>)
    requires WellFormed(table) && Sound(table, live) && Valid(table, req) && Coherent(table, s, live)
    ensures Coherent(table, Written(table, s, live, req, done), live) <==>
            && (QUALITIES in done ==> Filtered(table, Elements(req.enabled)) == live.qualities)
            && (RATES in done ==> forall n :: n in req.fps ==> n in live.overrides && live.overrides[n] == req.fps[n])
            && (PRESET in done && req.preset != "" ==> req.preset == live.preset)
  {
    BootedAfterWrite(table, s, live, req, done);
    MergeKeeps(live.overrides, req.fps);
    hide Valid, Sound, WellFormed, Written, StoredQualities, StoredOverrides, StoredPreset, Filtered;
  }

  // ---- Whole runs ----

  /** An update whose writes succeed, an update of which only `done` is written, or a restart of the server. */
  datatype Event = Update(req: Request) | Interrupted(req: Request, done: set<string>) | Restart

  datatype World = World(stored: Stored, live: Config)

  function Next(table: seq<Quality>, w: World, e: Event): World {
    match e
    case Restart => w.(live := Booted(table, w.stored))
    case Interrupted(req, done) =>
      if Valid(table, req) then w.(stored := Written(table, w.stored, w.live, req, done)) else w
    case Update(req) =>
      if Valid(table, req) then World(w.stored + ToSave(table, w.live, req), Applied(table, w.live, req)) else w
  }

  /** The server is started on a store that may hold anything. */
  function Run(table: seq<Quality>, stored: Stored, evs: seq<Event>): World {
    if evs == [] then World(stored, Booted(table, stored))
    else Next(table, Run(table, stored, evs[..|evs| - 1]), evs[|evs| - 1])
  }

  /** No interrupted update since the last restart, or since the last update that named a preset and a frame rate. */
  predicate Settled(table: seq<Quality>, evs: seq<Event>) {
    if evs == [] then true
    else
      var e, before := evs[|evs| - 1], Settled(table, evs[..|evs| - 1]);
      match e
      case Restart => true
      case Interrupted(req, done) => before && (Valid(table, req) ==> done == {})
      case Update(req) => before || (Valid(table, req) && req.fps != map[] && req.preset != "")
  }

  lemma BootedIsSound(table: seq<Quality>, s: Stored)
    requires WellFormed(table)
    ensures Sound(table, Booted(table, s)) && Booted(table, s).preset in ValidPresets()
  {
    FreshIsSound(table);
    FilteredAgain(table, Elements(DefaultQualities()));
    if QUALITIES in s {
      FilteredAgain(table, Elements(Split(s[QUALITIES], ',')));
    }
  }

  /** Whatever the store holds and however updates fail, what runs is sound. */
  lemma {:induction false} RunIsSound(table: seq<Quality>, stored: Stored, evs: seq<Event>)
    requires WellFormed(table)
    ensures Sound(table, Run(table, stored, evs).live) && Run(table, stored, evs).live.preset in ValidPresets()
  {
    if evs == [] {
      BootedIsSound(table, stored);
    } else {
      var w, e := Run(table, stored, evs[..|evs| - 1]), evs[|evs| - 1];
      RunIsSound(table, stored, evs[..|evs| - 1]);
      BootedIsSound(table, w.stored);
      if e.Update? && Valid(table, e.req) {
        AppliedIsSound(table, w.live, e.req);
      }
    }
  }

  lemma StepSettles(table: seq<Quality>, w: World, e: Event, before: bool)
    requires WellFormed(table) && Sound(table, w.live)
    requires before ==> Coherent(table, w.stored, w.live)
    requires match e
             case Restart => true
             case Interrupted(req, done) => before && (Valid(table, req) ==> done == {})
             case Update(req) => before || (Valid(table, req) && req.fps != map[] && req.preset != "")
    ensures Coherent(table, Next(table, w, e).stored, Next(table, w, e).live)
  {
    match e
    case Restart =>
    case Interrupted(req, done) =>
      hide Valid, ToSave;
      OnlyNone(ToSave(table, w.live, req));
    case Update(req) =>
      if Valid(table, req) {
        CoherentAfterSuccess(table, w.stored, w.live, req);
        hide Valid, ToSave, Applied, StoredOverrides, StoredPreset, StoredQualities;
      }
  }

  /** Along every run: while no update was interrupted, or once a restart or a full update came after it, a restart
      would change nothing. */
  lemma {:induction false} SettledIsCoherent(table: seq<Quality>, stored: Stored, evs: seq<Event>)
    requires WellFormed(table) && Settled(table, evs)
    ensures Coherent(table, Run(table, stored, evs).stored, Run(table, stored, evs).live)
  {
    if evs != [] {
      hide Valid, Sound, Next, WellFormed, Coherent;
      var front := evs[..|evs| - 1];
      RunIsSound(table, stored, front);
      if Settled(table, front) {
        SettledIsCoherent(table, stored, front);
      }
      StepSettles(table, Run(table, stored, front), evs[|evs| - 1], Settled(table, front));
    } else {
      StartsCoherent(table, stored);
    }
  }

  lemma {:induction false} CalmKeepsSettled(table: seq<Quality>, evs: seq<Event>, calm: seq<Event>)
    requires Settled(table, evs) && forall e :: e in calm ==> !e.Interrupted?
    ensures Settled(table, evs + calm)
  {
    if calm == [] {
      assert evs + calm == evs;
    } else {
      var front := calm[..|calm| - 1];
      CalmKeepsSettled(table, evs, front);
      assert (evs + calm)[..|evs + calm| - 1] == evs + front && calm[|calm| - 1] in calm;
    }
  }

  /** In particular: since the server was last started, on whatever store, no update was interrupted. */
  lemma CoherentSinceStart(table: seq<Quality>, stored: Stored, before: seq<Event>, calm: seq<Event>)
    requires WellFormed(table) && forall e :: e in calm ==> !e.Interrupted?
    ensures var w := Run(table, stored, calm);
            Booted(table, w.stored) == w.live
    ensures var w := Run(table, stored, before + [Restart] + calm);
            Booted(table, w.stored) == w.live
  {
    var restarted := before + [Restart];
    assert Settled(table, restarted);
    CalmKeepsSettled(table, restarted, calm);
    SettledIsCoherent(table, stored, restarted + calm);
    CalmKeepsSettled(table, [], calm);
    assert [] + calm == calm;
    SettledIsCoherent(table, stored, calm);
  }

  lemma StartsCoherent(table: seq<Quality>, stored: Stored)
    ensures Coherent(table, stored, Booted(table, stored))
  {
  }

  /** One interrupted update is enough to part them: a fresh server asked for 720p alone, with the preset "fast", which
      could write the preset but not the list. */
  lemma InterruptedUpdateParts(table: seq<Quality>)
    requires WellFormed(table) && Filtered(table, Elements(["720p"])) != []
    ensures var w := Run(table, map[], [Interrupted(Request(["720p"], map[], "fast"), {PRESET})]);
            !Coherent(table, w.stored, w.live)
  {
  }
}
