/** The ingest manager's settings (internal/ingest/manager.go): which qualities are encoded, at which frame rates, with
    which preset; what it reports about them and what it hands to the encoder. */
module Ingest {
  import opened Text
  import opened Qualities
  import opened FFmpegArgs

  datatype Config = Config(qualities: seq<Quality>, overrides: Overrides, preset: string)

  function ValidPresets(): seq<string> {
    ["auto", "ultrafast", "superfast", "veryfast", "faster", "fast", "medium"]
  }

  /** What the manager needs of its table of presets. */
  predicate WellFormed(table: seq<Quality>) {
    && Distinct(table) && CleanTable(table)
    && (forall q :: q in table ==> q.name != "" && ' ' !in q.name && (IsHD(q) ==> Accepted(q.fps)))
    && Filtered(table, Elements(DefaultQualities())) != []
  }

  predicate IsHDName(table: seq<Quality>, name: string) {
    exists q :: q in table && IsHD(q) && q.name == name
  }

  /** At least one quality, in the order of the table; an accepted frame rate for each HD name and for no other. */
  predicate Sound(table: seq<Quality>, c: Config) {
    && c.qualities != [] && c.qualities == Filtered(table, Elements(Names(c.qualities)))
    && (forall q :: q in table && IsHD(q) ==> q.name in c.overrides)
    && (forall n :: n in c.overrides ==> IsHDName(table, n) && Accepted(c.overrides[n]))
  }

  function Fresh(table: seq<Quality>): Config {
    Config(Filtered(table, Elements(DefaultQualities())), DefaultOverrides(table), "auto")
  }

  function WithQualities(table: seq<Quality>, c: Config, names: seq<string>): Config {
    var chosen := Filtered(table, Elements(names));
    if chosen == [] then c else c.(qualities := chosen)
  }

  /** The overrides that count: for HD names, with accepted frame rates. */
  function HDOverrides(table: seq<Quality>, m: Overrides): Overrides {
    map n | n in m && IsHDName(table, n) && Accepted(m[n]) :: m[n]
  }

  function WithOverrides(table: seq<Quality>, c: Config, m: Overrides): Config {
    c.(overrides := c.overrides + HDOverrides(table, m))
  }

  function AutoPreset(cores: nat): string {
    if cores >= 8 then "medium" else if cores >= 4 then "fast" else if cores >= 2 then "veryfast" else "ultrafast"
  }

  /** The frame rates reported for the enabled qualities. */
  function Reported(qs: seq<Quality>, overrides: Overrides): map<string, int> {
    if qs == [] then map[]
    else
      var q := qs[|qs| - 1];
      Reported(qs[..|qs| - 1], overrides)[q.name := if q.name in overrides then overrides[q.name] else q.fps]
  }

  /** The qualities as the encoder gets them. */
  function Encoded(c: Config): (qs: seq<Quality>)
    ensures |qs| == |c.qualities|
    ensures forall k :: 0 <= k < |qs| ==> qs[k] == c.qualities[k].(fps := Overridden(c.qualities[k], c.overrides))
  {
    seq(|c.qualities|, k requires 0 <= k < |c.qualities| => c.qualities[k].(fps := Overridden(c.qualities[k], c.overrides)))
  }

  /** A quality of this name is at least 720 lines high. */
  ghost predicate TallName(table: seq<Quality>, name: string) {
    exists q :: q in table && q.height >= 720 && q.name == name
  }

  lemma FilteredAre(table: seq<Quality>, names: seq<string>)
    ensures forall q :: q in Filtered(table, Elements(names)) <==> q in table && q.name in names
    ensures Filtered(table, Elements(names)) == [] <==> forall q :: q in table ==> q.name !in names
  {
    var chosen := Filtered(table, Elements(names));
    forall q ensures q in chosen <==> q in table && q.name in names {
      FilteredMembers(table, Elements(names), q);
    }
    assert chosen != [] ==> chosen[0] in chosen;
  }

  class Manager {
    const table: seq<Quality>
    var qualities: seq<Quality>
    var fpsOverrides: Overrides
    var preset: string

    ghost function Settings(): Config
      reads this
    {
      Config(qualities, fpsOverrides, preset)
    }

    constructor (presets: seq<Quality>)
      ensures table == presets && Settings() == Fresh(presets)
    {
      var chosen := FilterQualities(presets, DefaultQualities());
      var rates := DefaultFPSOverrides(presets);
      table, qualities, fpsOverrides, preset := presets, chosen, rates, "auto";
    }

    method SetQualities(names: seq<string>)
      modifies this`qualities
      ensures Settings() == WithQualities(table, old(Settings()), names)
      ensures (forall q :: q in table ==> q.name !in names) ==> qualities == old(qualities)
      ensures (exists q :: q in table && q.name in names) ==> forall q :: q in qualities <==> q in table && q.name in names
    {
      FilteredAre(table, names);
      var q := FilterQualities(table, names);
      if |q| == 0 {
        return;
      }
      qualities := q;
    }

    method SetFPSOverrides(overrides: Overrides)
      modifies this`fpsOverrides
      ensures Settings() == WithOverrides(table, old(Settings()), overrides)
      ensures forall n :: n in fpsOverrides ==>
                if n in overrides && (overrides[n] == 30 || overrides[n] == 60) && TallName(table, n)
                then fpsOverrides[n] == overrides[n]
                else n in old(fpsOverrides) && fpsOverrides[n] == old(fpsOverrides)[n]
      ensures forall n :: n in old(fpsOverrides) ==> n in fpsOverrides
      ensures forall n :: n in overrides && (overrides[n] == 30 || overrides[n] == 60) && TallName(table, n) ==>
                n in fpsOverrides
    {
      for i := 0 to |table|
        invariant fpsOverrides == old(fpsOverrides) + HDOverrides(table[..i], overrides)
      {
        MergeSnoc(table, i, old(fpsOverrides), overrides);
        if !IsHD(table[i]) {
          continue;
        }
        if table[i].name in overrides && Accepted(overrides[table[i].name]) {
          fpsOverrides := fpsOverrides[table[i].name := overrides[table[i].name]];
        }
      }
      assert table[..|table|] == table;
    }

    method SetPreset(p: string)
      modifies this`preset
      ensures Settings() == old(Settings()).(preset := p)
    {
      preset := p;
    }

    method ResolvedPreset(cores: nat) returns (p: string)
      ensures p == if preset == "auto" then AutoPreset(cores) else preset
      ensures preset != "auto" ==> p == preset
      ensures preset == "auto" ==>
                && (cores >= 8 ==> p == "medium") && (4 <= cores < 8 ==> p == "fast")
                && (2 <= cores < 4 ==> p == "veryfast") && (cores < 2 ==> p == "ultrafast")
    {
      p := if preset == "auto" then AutoPreset(cores) else preset;
    }

    /** The copy is complete: merging into it and reading it cannot differ from the manager's own map. */
    method FPSOverrides() returns (cp: Overrides)
      ensures cp == fpsOverrides
    {
      cp := map[];
      var left := fpsOverrides.Keys;
      while left != {}
        invariant left <= fpsOverrides.Keys && cp.Keys == fpsOverrides.Keys - left
        invariant forall k :: k in cp ==> cp[k] == fpsOverrides[k]
        decreases |left|
      {
        var k :| k in left;
        cp := cp[k := fpsOverrides[k]];
        left := left - {k};
      }
    }

    method QualityFPS() returns (result: map<string, int>)
      ensures result == Reported(qualities, fpsOverrides)
    {
      result := map[];
      for i := 0 to |qualities|
        invariant result == Reported(qualities[..i], fpsOverrides)
      {
        assert qualities[..i + 1][..i] == qualities[..i];
        var q := qualities[i];
        if q.name in fpsOverrides {
          result := result[q.name := fpsOverrides[q.name]];
        } else {
          result := result[q.name := q.fps];
        }
      }
      assert qualities[..|qualities|] == qualities;
    }

    method EnabledQualities() returns (names: seq<string>)
      ensures names == Names(qualities)
    {
      names := [];
      for i := 0 to |qualities|
        invariant names == Names(qualities)[..i]
      {
        names := names + [qualities[i].name];
      }
    }

    /** The part of runFFmpeg that turns a snapshot of the settings into the encoder's arguments. */
    method EncoderArgs(cores: nat, url: string, hlsDir: string, vodPath: string)
      returns (args: seq<Opt>, targets: seq<string>)
      ensures args == Options(url, hlsDir, Encoded(Settings()), if preset == "auto" then AutoPreset(cores) else preset)
      ensures targets == Targets(hlsDir, vodPath)
    {
      var overrides := FPSOverrides();
      var p := ResolvedPreset(cores);
      var quals := ApplyFPSOverrides(qualities, overrides);
      assert quals == Encoded(Settings());
      args, targets := BuildFFmpegArgs(url, hlsDir, quals, p, vodPath);
    }
  }

  lemma HDSnoc(table: seq<Quality>, i: nat)
    requires i < |table|
    ensures forall n :: IsHDName(table[..i + 1], n) <==>
                        IsHDName(table[..i], n) || (IsHD(table[i]) && n == table[i].name)
  {
    assert table[..i + 1] == table[..i] + [table[i]];
    forall n | IsHDName(table[..i], n) || (IsHD(table[i]) && n == table[i].name)
      ensures IsHDName(table[..i + 1], n)
    {
      if IsHDName(table[..i], n) {
        var q :| q in table[..i] && IsHD(q) && q.name == n;
        assert q in table[..i + 1];
      } else {
        assert table[i] in table[..i + 1];
      }
    }
  }

  lemma MergeSnoc(table: seq<Quality>, i: nat, base: Overrides, m: Overrides)
    requires i < |table|
    ensures base + HDOverrides(table[..i + 1], m) ==
            if IsHD(table[i]) && table[i].name in m && Accepted(m[table[i].name])
            then (base + HDOverrides(table[..i], m))[table[i].name := m[table[i].name]]
            else base + HDOverrides(table[..i], m)
  {
    HDSnoc(table, i);
    hide IsHDName;
    var q, before, after := table[i], HDOverrides(table[..i], m), HDOverrides(table[..i + 1], m);
    assert after == if IsHD(q) && q.name in m && Accepted(m[q.name]) then before[q.name := m[q.name]] else before;
  }

  // ---- Soundness ----

  lemma ServerNames()
    ensures Names(AllQualities()) == ["2160p", "1440p", "1080p", "720p", "480p", "360p"]
  {
  }

  lemma ServerNamesPlain()
    ensures Distinct(AllQualities())
    ensures forall q :: q in AllQualities() ==> Clean(q.name) && q.name != "" && ' ' !in q.name
  {
    ServerNames();
    var t := AllQualities();
    hide AllQualities;
    forall i | 0 <= i < |t| ensures Clean(t[i].name) && t[i].name != "" && ' ' !in t[i].name {
      assert t[i].name == Names(t)[i];
    }
    assert forall i :: 0 <= i < |t| ==> t[i].name == Names(t)[i];
  }

  lemma ServerRates()
    ensures forall q :: q in AllQualities() && IsHD(q) ==> Accepted(q.fps)
  {
  }

  /** The server's own table meets what the manager needs. */
  lemma ServerTableWellFormed()
    ensures WellFormed(AllQualities())
  {
    ServerNames();
    ServerNamesPlain();
    ServerRates();
    var t := AllQualities();
    hide AllQualities, Filtered;
    assert "1080p" in DefaultQualities();
    assert t[2].name == Names(t)[2] == "1080p";
    FilteredMembers(t, Elements(DefaultQualities()), t[2]);
  }

  lemma DefaultsSnoc(front: seq<Quality>, q: Quality)
    ensures DefaultOverrides(front + [q]) ==
            if IsHD(q) then DefaultOverrides(front)[q.name := q.fps] else DefaultOverrides(front)
  {
    assert (front + [q])[..|front|] == front;
  }

  lemma ListGrows(a: Quality, b: Quality, c: Quality, d: Quality, e: Quality, f: Quality)
    ensures [] + [a] == [a] && [a] + [b] == [a, b] && [a, b] + [c] == [a, b, c] && [a, b, c] + [d] == [a, b, c, d]
    ensures [a, b, c, d] + [e] == [a, b, c, d, e] && [a, b, c, d, e] + [f] == [a, b, c, d, e, f]
  {
  }

  lemma LastFourChosen(a: Quality, b: Quality, c: Quality, d: Quality, e: Quality, f: Quality, names: set<string>)
    requires a.name !in names && b.name !in names
    requires c.name in names && d.name in names && e.name in names && f.name in names
    ensures Filtered([a, b, c, d, e, f], names) == [c, d, e, f]
  {
    hide Filtered;
    NothingYet(names);
    ListGrows(a, b, c, d, e, f);
    ListGrows(c, d, e, f, f, f);
    FilteredSnoc([], a, names);
    FilteredSnoc([a], b, names);
    FilteredSnoc([a, b], c, names);
    FilteredSnoc([a, b, c], d, names);
    FilteredSnoc([a, b, c, d], e, names);
    FilteredSnoc([a, b, c, d, e], f, names);
  }

  lemma FirstFourHD(a: Quality, b: Quality, c: Quality, d: Quality, e: Quality, f: Quality)
    requires IsHD(a) && IsHD(b) && IsHD(c) && IsHD(d) && !IsHD(e) && !IsHD(f)
    ensures DefaultOverrides([a, b, c, d, e, f]) == map[a.name := a.fps, b.name := b.fps, c.name := c.fps, d.name := d.fps]
  {
    hide DefaultOverrides;
    NothingYet({});
    ListGrows(a, b, c, d, e, f);
    DefaultsSnoc([], a);
    DefaultsSnoc([a], b);
    DefaultsSnoc([a, b], c);
    DefaultsSnoc([a, b, c], d);
    DefaultsSnoc([a, b, c, d], e);
    DefaultsSnoc([a, b, c, d, e], f);
  }

  lemma NothingYet(names: set<string>)
    ensures Filtered([], names) == [] && DefaultOverrides([]) == map[]
  {
  }

  lemma NamesOf()
    ensures Elements(DefaultQualities()) == {"1080p", "720p", "480p", "360p"}
  {
    assert DefaultQualities() == ["1080p", "720p", "480p", "360p"];
    hide DefaultQualities;
    var d := ["1080p", "720p", "480p", "360p"];
    assert d[0] in d && d[1] in d && d[2] in d && d[3] in d;
  }

  /** The server's own manager starts with the four lower qualities, 60 frames for each HD one, and the preset "auto". */
  lemma ServerStartsWith()
    ensures var c := Fresh(AllQualities());
            && Names(c.qualities) == ["1080p", "720p", "480p", "360p"] && c.preset == "auto"
            && c.overrides == map["2160p" := 60, "1440p" := 60, "1080p" := 60, "720p" := 60]
  {
    var t := AllQualities();
    ServerNames();
    NamesOf();
    assert t == [t[0], t[1], t[2], t[3], t[4], t[5]];
    assert forall k :: 0 <= k < 6 ==> t[k].name == Names(t)[k];
    hide Filtered, DefaultOverrides, Elements, DefaultQualities;
    LastFourChosen(t[0], t[1], t[2], t[3], t[4], t[5], Elements(DefaultQualities()));
    FirstFourHD(t[0], t[1], t[2], t[3], t[4], t[5]);
  }

  lemma {:induction false} DefaultsCoverHD(table: seq<Quality>, name: string)
    ensures name in DefaultOverrides(table) <==> IsHDName(table, name)
    ensures (forall q :: q in table && IsHD(q) ==> Accepted(q.fps)) && name in DefaultOverrides(table) ==>
              Accepted(DefaultOverrides(table)[name])
  {
    if table != [] {
      var n := |table| - 1;
      DefaultsCoverHD(table[..n], name);
      HDSnoc(table, n);
      assert table[..n + 1] == table;
    }
  }

  lemma FreshIsSound(table: seq<Quality>)
    requires WellFormed(table)
    ensures Sound(table, Fresh(table))
  {
    var c := Fresh(table);
    FilteredAgain(table, Elements(DefaultQualities()));
    forall n ensures n in c.overrides <==> IsHDName(table, n)
      ensures n in c.overrides ==> Accepted(c.overrides[n])
    {
      DefaultsCoverHD(table, n);
    }
  }

  lemma WithQualitiesIsSound(table: seq<Quality>, c: Config, names: seq<string>)
    requires Sound(table, c)
    ensures Sound(table, WithQualities(table, c, names))
  {
    FilteredAgain(table, Elements(names));
  }

  lemma WithOverridesIsSound(table: seq<Quality>, c: Config, m: Overrides)
    requires Sound(table, c)
    ensures Sound(table, WithOverrides(table, c, m))
  {
  }

  datatype Setter = Choose(names: seq<string>) | Override(m: Overrides) | Preset(name: string)

  function After(table: seq<Quality>, c: Config, s: Setter): Config {
    match s
    case Choose(names) => WithQualities(table, c, names)
    case Override(m) => WithOverrides(table, c, m)
    case Preset(p) => c.(preset := p)
  }

  function Reached(table: seq<Quality>, calls: seq<Setter>): Config {
    if calls == [] then Fresh(table) else After(table, Reached(table, calls[..|calls| - 1]), calls[|calls| - 1])
  }

  /** Whatever the setters are called with, junk included. */
  lemma {:induction false} ReachedIsSound(table: seq<Quality>, calls: seq<Setter>)
    requires WellFormed(table)
    ensures Sound(table, Reached(table, calls))
  {
    if calls == [] {
      FreshIsSound(table);
    } else {
      var before := Reached(table, calls[..|calls| - 1]);
      ReachedIsSound(table, calls[..|calls| - 1]);
      match calls[|calls| - 1]
      case Choose(names) => WithQualitiesIsSound(table, before, names);
      case Override(m) => WithOverridesIsSound(table, before, m);
      case Preset(_) =>
    }
  }

  // ---- What is reported is what is encoded ----

  lemma {:induction false} FilteredDistinct(table: seq<Quality>, enabled: set<string>)
    requires Distinct(table)
    ensures Distinct(Filtered(table, enabled))
  {
    if table != [] {
      var n := |table| - 1;
      var front := Filtered(table[..n], enabled);
      FilteredDistinct(table[..n], enabled);
      forall k | 0 <= k < |front| ensures front[k].name != table[n].name {
        FilteredMembers(table[..n], enabled, front[k]);
      }
    }
  }

  lemma {:induction false} ReportedAt(qs: seq<Quality>, overrides: Overrides, i: nat)
    requires Distinct(qs) && i < |qs|
    ensures qs[i].name in Reported(qs, overrides)
    ensures Reported(qs, overrides)[qs[i].name] ==
            if qs[i].name in overrides then overrides[qs[i].name] else qs[i].fps
  {
    if i < |qs| - 1 {
      assert qs[i].name != qs[|qs| - 1].name;
      ReportedAt(qs[..|qs| - 1], overrides, i);
    }
  }

  lemma HDByName(table: seq<Quality>, q: Quality)
    requires Distinct(table) && q in table
    ensures IsHDName(table, q.name) <==> IsHD(q)
  {
  }

  /** In every sound state, the frame rate reported for an enabled quality is the one its encoder settings carry; an SD
      quality keeps its preset frame rate and an HD one is at 30 or 60. */
  lemma EncodedAsReported(table: seq<Quality>, c: Config, i: nat)
    requires WellFormed(table) && Sound(table, c) && i < |c.qualities|
    ensures var q, rates := c.qualities[i], Reported(c.qualities, c.overrides);
            && q in table && q.name in rates
            && Encoded(c)[i] == q.(fps := rates[q.name])
            && if q.height >= 720 then rates[q.name] == 30 || rates[q.name] == 60 else rates[q.name] == q.fps
  {
    var q := c.qualities[i];
    FilteredDistinct(table, Elements(Names(c.qualities)));
    FilteredMembers(table, Elements(Names(c.qualities)), q);
    ReportedAt(c.qualities, c.overrides, i);
    HDByName(table, q);
  }

  lemma EncodedNamesPlain(table: seq<Quality>, c: Config)
    requires WellFormed(table) && Sound(table, c)
    ensures forall q :: q in Encoded(c) ==> ' ' !in q.name && ',' !in q.name
  {
    forall q | q in Encoded(c) ensures ' ' !in q.name && ',' !in q.name {
      var k :| 0 <= k < |c.qualities| && Encoded(c)[k] == q;
      FilteredMembers(table, Elements(Names(c.qualities)), c.qualities[k]);
    }
  }

  /** The command line built from any state the setters can reach encodes variant i at the reported frame rate, with
      key frames twice that many frames apart, and says so once. */
  lemma CommandLineAsReported(table: seq<Quality>, calls: seq<Setter>, url: string, hlsDir: string, preset: string, i: nat)
    requires WellFormed(table) && i < |Reached(table, calls).qualities|
    ensures var c := Reached(table, calls);
            var q, rates := c.qualities[i], Reported(c.qualities, c.overrides);
            var args := Options(url, hlsDir, Encoded(c), preset);
            && q.name in rates
            && Once(args, "-filter:v:" + Itoa(i),
                    "scale=" + Itoa(q.width) + ":" + Itoa(q.height) + ",fps=" + Itoa(rates[q.name]))
            && Once(args, "-g:v:" + Itoa(i), Itoa(2 * rates[q.name]))
            && Once(args, "-keyint_min:v:" + Itoa(i), Itoa(2 * rates[q.name]))
  {
    hide *;
    var c := Reached(table, calls);
    ReachedIsSound(table, calls);
    EncodedAsReported(table, c, i);
    VariantEncodedAt(url, hlsDir, Encoded(c), preset, i);
  }

  /** The same command line has one stream map, which lists the enabled qualities in order, variant i under the name its
      frame rate is reported for. */
  lemma StreamMapAsReported(table: seq<Quality>, calls: seq<Setter>, url: string, hlsDir: string, preset: string, i: nat)
    requires WellFormed(table) && i < |Reached(table, calls).qualities|
    ensures var c := Reached(table, calls);
            var streams := Join(Streams(Encoded(c)), ' ');
            var entries := Split(streams, ' ');
            && Once(Options(url, hlsDir, Encoded(c), preset), "-var_stream_map", streams)
            && |entries| == |c.qualities|
            && Split(entries[i], ',') == ["v:" + Itoa(i), "a:" + Itoa(i), "name:" + c.qualities[i].name]
            && c.qualities[i].name in Reported(c.qualities, c.overrides)
  {
    hide *;
    var c := Reached(table, calls);
    ReachedIsSound(table, calls);
    EncodedAsReported(table, c, i);
    EncodedNamesPlain(table, c);
    StreamMapOnce(url, hlsDir, Encoded(c), preset);
    StreamsReadBack(Encoded(c), i);
  }
}
