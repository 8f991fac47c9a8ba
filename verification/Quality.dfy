/** The transcoding presets and the text form of the frame-rate overrides (internal/ingest/quality.go).

    The server has one table of presets, `AllQualities`; everything here is about any table. */
module Qualities {
  import opened Text
  import opened Wrappers

  datatype Quality = Quality(name: string, width: int, height: int, fps: int,
    videoBitrateK: int, maxRateK: int, bufSizeK: int, audioBitrateK: int)

  const HD_MIN_HEIGHT := 720

  predicate IsHD(q: Quality) { q.height >= HD_MIN_HEIGHT }

  function AllQualities(): seq<Quality> {
    [ Quality("2160p", 3840, 2160, 60, 20000, 21400, 40000, 192),
      Quality("1440p", 2560, 1440, 60, 12000, 12840, 24000, 160),
      Quality("1080p", 1920, 1080, 60, 6000, 6420, 12000, 128),
      Quality("720p", 1280, 720, 60, 4000, 4280, 8000, 128),
      Quality("480p", 854, 480, 30, 1500, 1605, 3000, 96),
      Quality("360p", 640, 360, 30, 600, 642, 1200, 64) ]
  }

  function DefaultQualities(): seq<string> { ["1080p", "720p", "480p", "360p"] }

  type Overrides = map<string, int>

  predicate Accepted(fps: int) { fps == 30 || fps == 60 }

  predicate Listed(table: seq<Quality>, name: string) {
    exists q :: q in table && q.name == name
  }

  method QualityByName(table: seq<Quality>, name: string) returns (r: Option<Quality>)
    ensures r.Some? <==> Listed(table, name)
    ensures r.Some? ==> exists k :: 0 <= k < |table| && table[k] == r.value && r.value.name == name &&
                          forall j :: 0 <= j < k ==> table[j].name != name
  {
    for i := 0 to |table|
      invariant forall j :: 0 <= j < i ==> table[j].name != name
    {
      if table[i].name == name {
        return Some(table[i]);
      }
    }
    return None;
  }

  // ---- Choosing qualities ----

  function Filtered(table: seq<Quality>, enabled: set<string>): seq<Quality> {
    if table == [] then []
    else
      var q := table[|table| - 1];
      Filtered(table[..|table| - 1], enabled) + if q.name in enabled then [q] else []
  }

  function Elements(names: seq<string>): set<string> { set n | n in names }

  function Names(qs: seq<Quality>): (names: seq<string>)
    ensures |names| == |qs| && forall k :: 0 <= k < |qs| ==> names[k] == qs[k].name
  {
    seq(|qs|, k requires 0 <= k < |qs| => qs[k].name)
  }

  method FilterQualities(table: seq<Quality>, enabled: seq<string>) returns (out: seq<Quality>)
    ensures out == Filtered(table, Elements(enabled))
  {
    var chosen: set<string> := {};
    for i := 0 to |enabled|
      invariant chosen == Elements(enabled[..i])
    {
      chosen := chosen + {enabled[i]};
    }
    assert enabled[..|enabled|] == enabled;
    out := [];
    for i := 0 to |table|
      invariant out == Filtered(table[..i], chosen)
    {
      assert table[..i + 1][..i] == table[..i];
      if table[i].name in chosen {
        out := out + [table[i]];
      }
    }
    assert table[..|table|] == table;
  }

  /** Exactly the presets named, whatever else was named. */
  lemma {:induction false} FilteredMembers(table: seq<Quality>, enabled: set<string>, q: Quality)
    ensures q in Filtered(table, enabled) <==> q in table && q.name in enabled
  {
    if table != [] {
      var front, last := table[..|table| - 1], table[|table| - 1];
      FilteredMembers(front, enabled, q);
      assert table == front + [last];
    }
  }

  lemma FilteredSnoc(front: seq<Quality>, q: Quality, enabled: set<string>)
    ensures Filtered(front + [q], enabled) == Filtered(front, enabled) + if q.name in enabled then [q] else []
  {
    assert (front + [q])[..|front|] == front;
  }

  predicate Distinct(table: seq<Quality>) {
    forall i, j :: 0 <= i < j < |table| ==> table[i].name != table[j].name
  }

  /** In the order of the table, each once: a quality chosen before another is listed before it. */
  lemma {:induction false} FilteredInOrder(table: seq<Quality>, enabled: set<string>, i: nat, j: nat, k: nat, l: nat)
    requires Distinct(table)
    requires i < j < |Filtered(table, enabled)| && k < |table| && l < |table|
    requires Filtered(table, enabled)[i] == table[k] && Filtered(table, enabled)[j] == table[l]
    ensures k < l
  {
    var front, last := table[..|table| - 1], table[|table| - 1];
    var chosen := Filtered(front, enabled);
    FilteredMembers(front, enabled, Filtered(table, enabled)[i]);
    assert chosen[i] in chosen;
    if l < |front| {
      FilteredMembers(front, enabled, last);
      assert front[l] in front;
      FilteredInOrder(front, enabled, i, j, k, l);
    }
  }

  /** Filtering by the names of a filtered list gives the list back. */
  lemma FilteredAgain(table: seq<Quality>, enabled: set<string>)
    ensures Filtered(table, Elements(Names(Filtered(table, enabled)))) == Filtered(table, enabled)
  {
    var kept := Filtered(table, enabled);
    forall q | q in table
      ensures q.name in Elements(Names(kept)) <==> q.name in enabled
    {
      FilteredMembers(table, enabled, q);
      if q.name in enabled {
        var k :| 0 <= k < |kept| && kept[k] == q;
        assert Names(kept)[k] in Names(kept);
      }
      if q.name in Elements(Names(kept)) {
        var k :| 0 <= k < |kept| && Names(kept)[k] == q.name;
        FilteredMembers(table, enabled, kept[k]);
      }
    }
    FilteredAgree(table, Elements(Names(kept)), enabled);
  }

  lemma {:induction false} FilteredAgree(table: seq<Quality>, a: set<string>, b: set<string>)
    requires forall q :: q in table ==> (q.name in a <==> q.name in b)
    ensures Filtered(table, a) == Filtered(table, b)
  {
    if table != [] {
      FilteredAgree(table[..|table| - 1], a, b);
    }
  }

  // ---- Overrides ----

  /** The frame rate of a quality under overrides. */
  function Overridden(q: Quality, overrides: Overrides): int {
    if q.name in overrides && Accepted(overrides[q.name]) then overrides[q.name] else q.fps
  }

  method ApplyFPSOverrides(qualities: seq<Quality>, overrides: Overrides) returns (out: seq<Quality>)
    ensures |out| == |qualities|
    ensures forall k :: 0 <= k < |out| ==> out[k] == qualities[k].(fps := Overridden(qualities[k], overrides))
    ensures forall k :: 0 <= k < |out| ==>
              var q := qualities[k];
              out[k].fps == if q.name in overrides && (overrides[q.name] == 30 || overrides[q.name] == 60)
                            then overrides[q.name] else q.fps
  {
    out := qualities;
    for i := 0 to |out|
      invariant |out| == |qualities|
      invariant forall k :: 0 <= k < i ==> out[k] == qualities[k].(fps := Overridden(qualities[k], overrides))
      invariant out[i..] == qualities[i..]
    {
      assert out[i] == out[i..][0] == qualities[i..][0];
      if out[i].name in overrides && Accepted(overrides[out[i].name]) {
        out := out[i := out[i].(fps := overrides[out[i].name])];
      }
    }
  }

  /** The frame rates of the HD presets. */
  function DefaultOverrides(table: seq<Quality>): Overrides {
    if table == [] then map[]
    else
      var q := table[|table| - 1];
      var m := DefaultOverrides(table[..|table| - 1]);
      if IsHD(q) then m[q.name := q.fps] else m
  }

  method DefaultFPSOverrides(table: seq<Quality>) returns (m: Overrides)
    ensures m == DefaultOverrides(table)
  {
    m := map[];
    for i := 0 to |table|
      invariant m == DefaultOverrides(table[..i])
    {
      assert table[..i + 1][..i] == table[..i];
      if IsHD(table[i]) {
        m := m[table[i].name := table[i].fps];
      }
    }
    assert table[..|table|] == table;
  }

  /** The defaults are for exactly the qualities at least 720 lines high, at their preset rates. */
  lemma {:induction false} DefaultsAre(table: seq<Quality>)
    requires Distinct(table)
    ensures forall q :: q in table && q.height >= 720 ==>
              q.name in DefaultOverrides(table) && DefaultOverrides(table)[q.name] == q.fps
    ensures forall n :: n in DefaultOverrides(table) ==> exists q :: q in table && q.height >= 720 && q.name == n
  {
    if table != [] {
      var front, last := table[..|table| - 1], table[|table| - 1];
      DefaultsAre(front);
      assert table == front + [last];
      forall q | q in front ensures q.name != last.name {
        var k :| 0 <= k < |front| && front[k] == q;
        assert table[k] == q;
      }
      assert last in table;
      forall n | n in DefaultOverrides(table)
        ensures exists q :: q in table && q.height >= 720 && q.name == n
      {
        if n in DefaultOverrides(front) {
          var q :| q in front && q.height >= 720 && q.name == n;
          assert q in table;
        }
      }
    }
  }

  // ---- The server's table ----

  /** A preset is named after its height, and is as wide as 16:9 and even numbers allow; HD ones run at 60 frames, the
      others at 30; the peak rate is 1.07 times the video rate and the buffer twice it; audio rates are multiples of 32. */
  predicate Regular(q: Quality) {
    && q.name == Itoa(q.height) + "p" && q.fps == (if q.height >= 720 then 60 else 30)
    && q.maxRateK * 100 == q.videoBitrateK * 107 && q.bufSizeK == 2 * q.videoBitrateK
    && 16 * q.height <= 9 * q.width < 16 * q.height + 18 && q.width % 2 == 0 && q.audioBitrateK % 32 == 0
  }

  lemma HeightsWritten()
    ensures Itoa(2160) == "2160" && Itoa(1440) == "1440" && Itoa(1080) == "1080"
    ensures Itoa(720) == "720" && Itoa(480) == "480" && Itoa(360) == "360"
  {
    hide Itoa;
    ThreeOrFour(2, 1, 6, 0);
    ThreeOrFour(1, 4, 4, 0);
    ThreeOrFour(1, 0, 8, 0);
    ThreeOrFour(7, 2, 0, 0);
    ThreeOrFour(4, 8, 0, 0);
    ThreeOrFour(3, 6, 0, 0);
  }

  lemma ThreeOrFour(a: int, b: int, c: int, d: int)
    requires 0 < a < 10 && 0 <= b < 10 && 0 <= c < 10 && 0 <= d < 10
    ensures var digits := "0123456789";
            && Itoa(100 * a + 10 * b + c) == [digits[a], digits[b], digits[c]]
            && Itoa(1000 * a + 100 * b + 10 * c + d) == [digits[a], digits[b], digits[c], digits[d]]
  {
    hide Itoa;
    WrittenInDecimal(a);
    OneDigitMore(a, b);
    OneDigitMore(10 * a + b, c);
    OneDigitMore(100 * a + 10 * b + c, d);
  }

  lemma ServerTableRegular()
    ensures forall k :: 0 <= k < |AllQualities()| ==> Regular(AllQualities()[k])
    ensures forall i, j :: 0 <= i < j < |AllQualities()| ==>
              var a, b := AllQualities()[i], AllQualities()[j];
              a.height > b.height && a.width > b.width && a.videoBitrateK > b.videoBitrateK && a.audioBitrateK >= b.audioBitrateK
  {
    HeightsWritten();
    hide Itoa;
  }

  // ---- The text form ----

  function Entries(table: seq<Quality>, m: Overrides): seq<string> {
    if table == [] then []
    else
      var q := table[|table| - 1];
      Entries(table[..|table| - 1], m) + if q.name in m then [q.name + ":" + Itoa(m[q.name])] else []
  }

  function Serialized(table: seq<Quality>, m: Overrides): string { Join(Entries(table, m), ',') }

  method SerializeFPSOverrides(table: seq<Quality>, m: Overrides) returns (s: string)
    ensures s == Serialized(table, m)
  {
    var parts: seq<string> := [];
    for i := 0 to |table|
      invariant parts == Entries(table[..i], m)
    {
      assert table[..i + 1][..i] == table[..i];
      if table[i].name in m {
        parts := parts + [table[i].name + ":" + Itoa(m[table[i].name])];
      }
    }
    assert table[..|table|] == table;
    return Join(parts, ',');
  }

  /** The override a part spells out, if it is well formed, its frame rate is accepted and its name is listed. */
  function Setting(table: seq<Quality>, part: string): (r: Option<(string, int)>)
    ensures r.Some? ==> Listed(table, r.value.0) && Accepted(r.value.1) && ':' !in r.value.0 && r.value.0 <= part
  {
    var i := Index(part, ':');
    if i == |part| then None
    else
      var name, fps := part[..i], Atoi(part[i + 1..]);
      if fps.Some? && Accepted(fps.value) && Listed(table, name) then Some((name, fps.value)) else None
  }

  function ParsedParts(table: seq<Quality>, parts: seq<string>): Overrides {
    if parts == [] then map[]
    else
      var m := ParsedParts(table, parts[..|parts| - 1]);
      match Setting(table, parts[|parts| - 1])
      case None => m
      case Some(e) => m[e.0 := e.1]
  }

  function Parsed(table: seq<Quality>, s: string): Overrides { ParsedParts(table, Split(s, ',')) }

  method ParseFPSOverrides(table: seq<Quality>, s: string) returns (m: Overrides)
    ensures m == Parsed(table, s)
  {
    hide Index, Split, Atoi, ParsedParts;
    ParsedNone(table);
    m := map[];
    var parts := Split(s, ',');
    for i := 0 to |parts|
      invariant m == ParsedParts(table, parts[..i])
    {
      assert parts[..i + 1] == parts[..i] + [parts[i]];
      ParsedSnoc(table, parts[..i], parts[i]);
      var colon := Index(parts[i], ':');
      if colon == |parts[i]| {
        continue;
      }
      var name, fps := parts[i][..colon], Atoi(parts[i][colon + 1..]);
      if fps.None? || (fps.value != 30 && fps.value != 60) {
        continue;
      }
      var known := QualityByName(table, name);
      if known.Some? {
        m := m[name := fps.value];
      }
    }
    assert parts[..|parts|] == parts;
  }

  /** What a map says about listed names with accepted frame rates. */
  function Restricted(table: seq<Quality>, m: Overrides): Overrides {
    map n | n in m && Listed(table, n) && Accepted(m[n]) :: m[n]
  }

  predicate Clean(name: string) { ',' !in name && ':' !in name }

  predicate CleanTable(table: seq<Quality>) { forall q :: q in table ==> Clean(q.name) }

  // ---- Writing ----

  /** One entry "name:rate" for each listed name that has a rate, in the order of the table. */
  lemma {:induction false} EntriesAre(table: seq<Quality>, m: Overrides)
    ensures var chosen := Filtered(table, m.Keys);
            && |Entries(table, m)| == |chosen|
            && forall k :: 0 <= k < |chosen| ==>
                 chosen[k].name in m && Entries(table, m)[k] == chosen[k].name + ":" + Itoa(m[chosen[k].name])
  {
    hide Itoa;
    if table != [] {
      EntriesAre(table[..|table| - 1], m);
    }
  }

  /** Joined by commas. */
  lemma TwoEntries(a: Quality, b: Quality, m: Overrides)
    requires a.name in m && b.name in m
    ensures Serialized([a, b], m) == a.name + ":" + Itoa(m[a.name]) + "," + b.name + ":" + Itoa(m[b.name])
  {
    hide Itoa;
    var x, y := a.name + ":" + Itoa(m[a.name]), b.name + ":" + Itoa(m[b.name]);
    assert [a, b][..1] == [a] && [a][..0] == [];
    assert Entries([a], m) == [x];
    assert Entries([a, b], m) == [x, y];
    assert [x, y][1..] == [y] && Join([x, y], ',') == x + [','] + y;
    assert x + "," + b.name + ":" + Itoa(m[b.name]) == x + [','] + y;
  }

  // ---- Reading ----

  /** A part sets a name if it is the name, a colon and an integer 30 or 60, however written, and the name is listed; what
      has no colon sets nothing. */
  lemma SettingMeans(table: seq<Quality>, name: string, text: string)
    requires ':' !in name
    ensures Setting(table, name) == None
    ensures Setting(table, name + ":" + text) ==
            if (Atoi(text) == Some(30) || Atoi(text) == Some(60)) && Listed(table, name)
            then Some((name, Atoi(text).value)) else None
  {
    var part := name + ":" + text;
    assert part == name + [':'] + text;
    IndexNowhere(name, ':');
    IndexAfter(name, text, ':');
    hide Index, Atoi;
    assert part[..|name|] == name && part[|name| + 1..] == text;
  }

  predicate Sets(table: seq<Quality>, part: string, name: string) {
    Setting(table, part).Some? && Setting(table, part).value.0 == name
  }

  /** The last part that sets a name wins, whatever came before and whatever junk follows. */
  lemma {:induction false} LastSettingWins(table: seq<Quality>, parts: seq<string>, name: string, k: nat)
    requires k < |parts| && Sets(table, parts[k], name)
    requires forall j :: k < j < |parts| ==> !Sets(table, parts[j], name)
    ensures name in ParsedParts(table, parts)
    ensures ParsedParts(table, parts)[name] == Setting(table, parts[k]).value.1
  {
    if k < |parts| - 1 {
      assert !Sets(table, parts[|parts| - 1], name);
      LastSettingWins(table, parts[..|parts| - 1], name, k);
    }
  }

  /** A name no part sets is not there. */
  lemma {:induction false} UnsetIsAbsent(table: seq<Quality>, parts: seq<string>, name: string)
    requires forall p :: p in parts ==> !Sets(table, p, name)
    ensures name !in ParsedParts(table, parts)
  {
    if parts != [] {
      assert !Sets(table, parts[|parts| - 1], name);
      UnsetIsAbsent(table, parts[..|parts| - 1], name);
    }
  }

  /** Whatever is read names listed qualities cleanly, with accepted frame rates. */
  lemma {:induction false} ParsedIsSound(table: seq<Quality>, parts: seq<string>, name: string)
    requires forall p :: p in parts ==> ',' !in p
    requires name in ParsedParts(table, parts)
    ensures Listed(table, name) && Accepted(ParsedParts(table, parts)[name]) && Clean(name)
    ensures ParsedParts(table, parts)[name] == 30 || ParsedParts(table, parts)[name] == 60
  {
    var front, last := parts[..|parts| - 1], Setting(table, parts[|parts| - 1]);
    if last.Some? && last.value.0 == name {
      assert parts[|parts| - 1] in parts;
    } else {
      ParsedIsSound(table, front, name);
    }
  }

  // ---- Round trips ----

  lemma SettingOfEntry(table: seq<Quality>, name: string, fps: int)
    requires Clean(name)
    ensures Setting(table, name + ":" + Itoa(fps)) ==
            if Listed(table, name) && Accepted(fps) then Some((name, fps)) else None
  {
    var part := name + ":" + Itoa(fps);
    assert part == name + [':'] + Itoa(fps);
    IndexAfter(name, Itoa(fps), ':');
    assert part[..|name|] == name && part[|name| + 1..] == Itoa(fps);
    AtoiItoa(fps);
  }

  lemma {:induction false} EntriesPlain(table: seq<Quality>, m: Overrides)
    requires CleanTable(table)
    ensures forall p :: p in Entries(table, m) ==> ',' !in p
  {
    if table != [] {
      var q := table[|table| - 1];
      EntriesPlain(table[..|table| - 1], m);
      if q.name in m {
        ItoaIsPlain(m[q.name], ',');
        assert ',' !in q.name + ":" + Itoa(m[q.name]);
      }
    }
  }

  lemma ParsedNone(table: seq<Quality>)
    ensures ParsedParts(table, []) == map[]
  {
  }

  lemma ParsedSnoc(table: seq<Quality>, parts: seq<string>, part: string)
    ensures ParsedParts(table, parts + [part]) ==
            match Setting(table, part)
            case None => ParsedParts(table, parts)
            case Some(e) => ParsedParts(table, parts)[e.0 := e.1]
  {
  }

  /** Reading back the entries of the first `n` presets. */
  lemma {:induction false} ParseEntries(table: seq<Quality>, n: nat, m: Overrides)
    requires CleanTable(table) && n <= |table|
    ensures ParsedParts(table, Entries(table[..n], m)) == Restricted(table[..n], m)
  {
    hide Setting;
    hide Restricted;
    hide ParsedParts;
    if n == 0 {
      assert ParsedParts(table, []) == map[] == Restricted([], m) by { ParseNothing(table, m); }
      assert table[..0] == [];
    } else {
      var q, front := table[n - 1], table[..n - 1];
      ParseEntries(table, n - 1, m);
      RestrictedSnoc(front, q, m);
      assert table[..n][..n - 1] == front && table[..n] == front + [q];
      if q.name in m {
        assert Listed(table, q.name);
        SettingOfEntry(table, q.name, m[q.name]);
        ParsedSnoc(table, Entries(front, m), q.name + ":" + Itoa(m[q.name]));
      } else {
        assert Entries(table[..n], m) == Entries(front, m);
      }
    }
  }

  lemma ParseNothing(table: seq<Quality>, m: Overrides)
    ensures ParsedParts(table, []) == map[] == Restricted([], m)
  {
    hide ParsedParts;
    ParsedNone(table);
  }

  lemma RestrictedSnoc(front: seq<Quality>, q: Quality, m: Overrides)
    ensures Restricted(front + [q], m) ==
            if q.name in m && Accepted(m[q.name]) then Restricted(front, m)[q.name := m[q.name]]
            else Restricted(front, m)
  {
  }

  lemma ParseSerialize(table: seq<Quality>, m: Overrides)
    requires CleanTable(table)
    ensures Parsed(table, Serialized(table, m)) == Restricted(table, m)
  {
    ParseEntries(table, |table|, m);
    assert table[..|table|] == table;
    var es := Entries(table, m);
    if es == [] {
      assert Split("", ',') == [""];
      assert ParsedParts(table, [""]) == ParsedParts(table, []);
    } else {
      EntriesPlain(table, m);
      SplitJoin(es, ',');
    }
  }

  /** Reading back what was written gives the overrides of listed names with accepted frame rates, for every map,
      exactly when no listed name holds one of the two separators. */
  lemma RoundTripExactlyForCleanTables(table: seq<Quality>)
    ensures (forall m :: Parsed(table, Serialized(table, m)) == Restricted(table, m)) <==> CleanTable(table)
  {
    if CleanTable(table) {
      forall m ensures Parsed(table, Serialized(table, m)) == Restricted(table, m) {
        ParseSerialize(table, m);
      }
    } else {
      var q :| q in table && !Clean(q.name);
      var m: Overrides := map[q.name := 30];
      assert Listed(table, q.name);
      assert q.name in Restricted(table, m);
      var parts := Split(Serialized(table, m), ',');
      if q.name in ParsedParts(table, parts) {
        ParsedIsSound(table, parts, q.name);
        assert false;
      }
      assert Parsed(table, Serialized(table, m)) != Restricted(table, m);
    }
  }

  function Normal(table: seq<Quality>, s: string): string { Serialized(table, Parsed(table, s)) }

  /** Writing after reading keeps the meaning of any text, junk and duplicates included, and gives its normal form. */
  lemma NormalForm(table: seq<Quality>, s: string)
    requires CleanTable(table)
    ensures Parsed(table, Normal(table, s)) == Parsed(table, s)
    ensures Normal(table, Normal(table, s)) == Normal(table, s)
  {
    var m := Parsed(table, s);
    ParseSerialize(table, m);
    forall n | n in m ensures Listed(table, n) && Accepted(m[n]) {
      ParsedIsSound(table, Split(s, ','), n);
    }
    assert Restricted(table, m) == m;
  }

  /** Two texts have the same normal form exactly when they mean the same. */
  lemma NormalFormDecides(table: seq<Quality>, s: string, t: string)
    requires CleanTable(table)
    ensures Normal(table, s) == Normal(table, t) <==> Parsed(table, s) == Parsed(table, t)
  {
    NormalForm(table, s);
    NormalForm(table, t);
  }
}
