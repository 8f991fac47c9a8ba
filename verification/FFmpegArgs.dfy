/** The encoder's command line (internal/ingest/ffmpeg.go, buildFFmpegArgs).

    Every argument up to the HLS output path is an option followed by its value: `Opt` is such a pair, so the arguments
    are a sequence of pairs and then the output paths. `Once` says what a command line sets an option to. */
module FFmpegArgs {
  import opened Text
  import opened Qualities

  datatype Opt = Opt(option: string, value: string)

  /** The option is given exactly once, with this value. */
  ghost predicate Once(opts: seq<Opt>, option: string, value: string) {
    exists k :: 0 <= k < |opts| && opts[k] == Opt(option, value) &&
      forall j :: 0 <= j < |opts| && opts[j].option == option ==> j == k
  }

  predicate Absent(opts: seq<Opt>, option: string) {
    forall j :: 0 <= j < |opts| ==> opts[j].option != option
  }

  // ---- The parts of the command line ----

  function Maps(n: nat): seq<Opt> {
    if n == 0 then [] else Maps(n - 1) + [Opt("-map", "0:v:0"), Opt("-map", "0:a:0")]
  }

  function Listen(url: string): seq<Opt> { [Opt("-listen", "1"), Opt("-i", url)] }

  function Codec(preset: string): seq<Opt> {
    [Opt("-c:v", "libx264"), Opt("-preset", preset), Opt("-sc_threshold", "0")]
  }

  function Audio(): seq<Opt> { [Opt("-c:a", "aac"), Opt("-ar", "48000")] }

  function Scale(q: Quality): string {
    "scale=" + Itoa(q.width) + ":" + Itoa(q.height) + ",fps=" + Itoa(q.fps)
  }

  function VideoOptions(i: nat, q: Quality): (opts: seq<Opt>)
    ensures |opts| == 6
  {
    [ Opt("-filter:v:" + Itoa(i), Scale(q)),
      Opt("-b:v:" + Itoa(i), Itoa(q.videoBitrateK) + "k"),
      Opt("-maxrate:v:" + Itoa(i), Itoa(q.maxRateK) + "k"),
      Opt("-bufsize:v:" + Itoa(i), Itoa(q.bufSizeK) + "k"),
      Opt("-g:v:" + Itoa(i), Itoa(q.fps * 2)),
      Opt("-keyint_min:v:" + Itoa(i), Itoa(q.fps * 2)) ]
  }

  function Video(qs: seq<Quality>): (opts: seq<Opt>)
    ensures |opts| == 6 * |qs|
  {
    if qs == [] then [] else Video(qs[..|qs| - 1]) + VideoOptions(|qs| - 1, qs[|qs| - 1])
  }

  function AudioRates(qs: seq<Quality>): seq<Opt> {
    if qs == [] then []
    else
      var i := |qs| - 1;
      AudioRates(qs[..i]) + [Opt("-b:a:" + Itoa(i), Itoa(qs[i].audioBitrateK) + "k")]
  }

  function Stream(i: nat, q: Quality): string {
    "v:" + Itoa(i) + ",a:" + Itoa(i) + ",name:" + q.name
  }

  function Streams(qs: seq<Quality>): (parts: seq<string>)
    ensures |parts| == |qs| && forall i :: 0 <= i < |qs| ==> parts[i] == Stream(i, qs[i])
  {
    seq(|qs|, i requires 0 <= i < |qs| => Stream(i, qs[i]))
  }

  function Hls(hlsDir: string): seq<Opt> {
    [ Opt("-f", "hls"),
      Opt("-hls_time", "2"),
      Opt("-hls_list_size", "5"),
      Opt("-hls_flags", "delete_segments+independent_segments+temp_file+program_date_time"),
      Opt("-master_pl_name", "master.m3u8"),
      Opt("-hls_segment_filename", hlsDir + "/%v/seg%03d.ts") ]
  }

  /** What comes before the per-variant options. */
  function Input(url: string, n: nat, preset: string): seq<Opt> { Listen(url) + Maps(n) + Codec(preset) }

  function StreamMap(qs: seq<Quality>): seq<Opt> { [Opt("-var_stream_map", Join(Streams(qs), ' '))] }

  function Options(url: string, hlsDir: string, qs: seq<Quality>, preset: string): seq<Opt> {
    (Input(url, |qs|, preset) + Video(qs)) + ((Audio() + AudioRates(qs)) + (StreamMap(qs) + Hls(hlsDir)))
  }

  function Recording(vodPath: string): seq<string> {
    [ "-map", "0:v:0", "-map", "0:a:0", "-c:v", "copy", "-c:a", "copy", "-f", "mp4",
      "-movflags", "+frag_keyframe+empty_moov", vodPath ]
  }

  /** The HLS output path, and the recording if there is one. */
  function Targets(hlsDir: string, vodPath: string): seq<string> {
    [hlsDir + "/%v/index.m3u8"] + if vodPath == "" then [] else Recording(vodPath)
  }

  lemma RecordingIs(vodPath: string)
    ensures Recording(vodPath) ==
            [ "-map", "0:v:0", "-map", "0:a:0", "-c:v", "copy", "-c:a", "copy", "-f", "mp4",
              "-movflags", "+frag_keyframe+empty_moov", vodPath ]
  {
  }

  lemma VideoSnoc(qs: seq<Quality>, i: nat)
    requires i < |qs|
    ensures Video(qs[..i + 1]) == Video(qs[..i]) + VideoOptions(i, qs[i])
  {
    assert qs[..i + 1][..i] == qs[..i];
  }

  lemma RatesSnoc(qs: seq<Quality>, i: nat)
    requires i < |qs|
    ensures AudioRates(qs[..i + 1]) == AudioRates(qs[..i]) + [Opt("-b:a:" + Itoa(i), Itoa(qs[i].audioBitrateK) + "k")]
  {
    assert qs[..i + 1][..i] == qs[..i];
  }

  lemma Nothing()
    ensures Video([]) == [] && AudioRates([]) == []
  {
  }

  method BuildFFmpegArgs(url: string, hlsDir: string, qs: seq<Quality>, preset: string, vodPath: string)
    returns (args: seq<Opt>, targets: seq<string>)
    ensures args == Options(url, hlsDir, qs, preset) && targets == Targets(hlsDir, vodPath)
    ensures targets != [] && targets[0] == hlsDir + "/%v/index.m3u8" && (vodPath == "" ==> |targets| == 1)
    ensures vodPath != "" ==>
              targets[1..] == [ "-map", "0:v:0", "-map", "0:a:0", "-c:v", "copy", "-c:a", "copy", "-f", "mp4",
                                "-movflags", "+frag_keyframe+empty_moov", vodPath ]
  {
    RecordingIs(vodPath);
    hide Listen, Codec, Audio, Hls, Recording, Itoa, Join, Stream, VideoOptions, Video, AudioRates;
    Nothing();
    args := Listen(url);
    for i := 0 to |qs|
      invariant args == Listen(url) + Maps(i)
    {
      args := args + [Opt("-map", "0:v:0"), Opt("-map", "0:a:0")];
    }
    args := args + Codec(preset);
    ghost var input := args;
    for i := 0 to |qs|
      invariant args == input + Video(qs[..i])
    {
      VideoSnoc(qs, i);
      args := args + VideoOptions(i, qs[i]);
    }
    assert qs[..|qs|] == qs;
    ghost var video := args;
    args := args + Audio();
    for i := 0 to |qs|
      invariant args == video + (Audio() + AudioRates(qs[..i]))
    {
      RatesSnoc(qs, i);
      args := args + [Opt("-b:a:" + Itoa(i), Itoa(qs[i].audioBitrateK) + "k")];
    }
    var parts: seq<string> := [];
    for i := 0 to |qs|
      invariant parts == Streams(qs)[..i]
    {
      parts := parts + [Stream(i, qs[i])];
    }
    assert parts == Streams(qs);
    args := args + ([Opt("-var_stream_map", Join(parts, ' '))] + Hls(hlsDir));
    targets := [hlsDir + "/%v/index.m3u8"];
    if vodPath != "" {
      targets := targets + Recording(vodPath);
    }
  }

  // ---- What the encoder is told ----

  /** The three characters after an option's dash tell the indexed options apart. */
  datatype Head = Head(c: char, d: char, e: char)

  predicate Starts(option: string, h: Head) {
    |option| > 3 && option[1] == h.c && option[2] == h.d && option[3] == h.e
  }

  const AUDIO_RATE := Head('b', ':', 'a')
  const STREAM_MAP := Head('v', 'a', 'r')
  const PRESET := Head('p', 'r', 'e')

  function Slot(j: nat): string {
    match j
    case 0 => "-filter:v:"
    case 1 => "-b:v:"
    case 2 => "-maxrate:v:"
    case 3 => "-bufsize:v:"
    case 4 => "-g:v:"
    case _ => "-keyint_min:v:"
  }

  /** The heads of the options that say what a variant is, or how variants are put together. */
  predicate Indexed(h: Head) {
    || h == AUDIO_RATE || h == STREAM_MAP
    || h == Head('f', 'i', 'l') || h == Head('b', ':', 'v') || h == Head('m', 'a', 'x')
    || h == Head('b', 'u', 'f') || h == Head('g', ':', 'v') || h == Head('k', 'e', 'y')
  }

  function SlotHead(j: nat): (h: Head)
    ensures Starts(Slot(j), h) && Indexed(h) && h != AUDIO_RATE && h != STREAM_MAP && h != PRESET
  {
    Head(Slot(j)[1], Slot(j)[2], Slot(j)[3])
  }

  lemma SlotOf(j: nat, l: nat)
    requires j < 6 && l < 6 && SlotHead(j) == SlotHead(l)
    ensures j == l
  {
  }

  lemma SlotOption(i: nat, q: Quality, j: nat)
    requires j < 6
    ensures VideoOptions(i, q)[j].option == Slot(j) + Itoa(i)
  {
    hide Itoa;
  }

  lemma SlotStarts(i: nat, q: Quality, j: nat)
    requires j < 6
    ensures Starts(VideoOptions(i, q)[j].option, SlotHead(j))
  {
    SlotOption(i, q, j);
    hide VideoOptions, Itoa, Slot;
  }

  lemma ItoaInjective(m: nat, n: nat)
    requires Itoa(m) == Itoa(n)
    ensures m == n
  {
  }

  /** No two of the per-variant options are the same, within a variant or across variants. */
  lemma SlotsDiffer(i: nat, q: Quality, j: nat, k: nat, r: Quality, l: nat)
    requires j < 6 && l < 6 && VideoOptions(i, q)[j].option == VideoOptions(k, r)[l].option
    ensures i == k && j == l
  {
    SlotOption(i, q, j);
    SlotOption(k, r, l);
    SlotStarts(i, q, j);
    SlotStarts(k, r, l);
    hide VideoOptions, Itoa, Slot;
    SlotOf(j, l);
    var option := Slot(j) + Itoa(i);
    assert option[|Slot(j)|..] == Itoa(i) == Itoa(k);
    ItoaInjective(i, k);
  }

  // -- Where no option starts like this --

  predicate Avoids(opts: seq<Opt>, h: Head) {
    forall j :: 0 <= j < |opts| ==> !Starts(opts[j].option, h)
  }

  lemma AvoidsBoth(a: seq<Opt>, b: seq<Opt>, h: Head)
    requires Avoids(a, h) && Avoids(b, h)
    ensures Avoids(a + b, h)
  {
  }

  lemma AbsentIfAvoids(opts: seq<Opt>, option: string, h: Head)
    requires Avoids(opts, h) && Starts(option, h)
    ensures Absent(opts, option)
  {
  }

  lemma {:induction false} MapsAvoid(n: nat, h: Head)
    requires h != Head('m', 'a', 'p')
    ensures Avoids(Maps(n), h)
  {
    if n > 0 {
      MapsAvoid(n - 1, h);
    }
  }

  lemma {:induction false} RatesAvoid(qs: seq<Quality>, h: Head)
    requires h != AUDIO_RATE
    ensures Avoids(AudioRates(qs), h)
  {
    hide Itoa;
    if qs != [] {
      RatesAvoid(qs[..|qs| - 1], h);
    }
  }

  lemma SlotAvoids(i: nat, q: Quality, j: nat, h: Head)
    requires j < 6 && (h == AUDIO_RATE || h == STREAM_MAP || h == PRESET)
    ensures !Starts(VideoOptions(i, q)[j].option, h)
  {
    SlotStarts(i, q, j);
    hide VideoOptions, Slot;
  }

  lemma {:induction false} VideoAvoids(qs: seq<Quality>, h: Head)
    requires h == AUDIO_RATE || h == STREAM_MAP || h == PRESET
    ensures Avoids(Video(qs), h)
  {
    hide VideoOptions, Starts;
    if qs != [] {
      var i := |qs| - 1;
      VideoAvoids(qs[..i], h);
      forall j | 0 <= j < 6 ensures !Starts(VideoOptions(i, qs[i])[j].option, h) {
        SlotAvoids(i, qs[i], j, h);
      }
      AvoidsBoth(Video(qs[..i]), VideoOptions(i, qs[i]), h);
    }
  }

  lemma InputFixedAvoid(url: string, preset: string, h: Head)
    requires Indexed(h)
    ensures Avoids(Listen(url), h) && Avoids(Codec(preset), h) && h != Head('m', 'a', 'p')
  {
  }

  lemma OutputFixedAvoid(hlsDir: string, h: Head)
    requires Indexed(h)
    ensures Avoids(Audio(), h) && Avoids(Hls(hlsDir), h)
  {
  }

  lemma InputAvoids(url: string, n: nat, preset: string, h: Head)
    requires Indexed(h)
    ensures Avoids(Input(url, n, preset), h)
  {
    InputFixedAvoid(url, preset, h);
    MapsAvoid(n, h);
    hide Listen, Maps, Codec;
    AvoidsBoth(Listen(url), Maps(n), h);
    AvoidsBoth(Listen(url) + Maps(n), Codec(preset), h);
  }

  /** What comes after the audio options. */
  lemma OutputAvoids(hlsDir: string, qs: seq<Quality>, h: Head)
    requires Indexed(h) && h != STREAM_MAP
    ensures Avoids(StreamMap(qs) + Hls(hlsDir), h)
  {
    hide Join, Streams;
    OutputFixedAvoid(hlsDir, h);
    hide Hls;
    AvoidsBoth(StreamMap(qs), Hls(hlsDir), h);
  }

  // -- Options given once --

  /** The command line, cut around each of the parts that are given once. */
  lemma OptionsCut(url: string, hlsDir: string, qs: seq<Quality>, preset: string)
    ensures var input, video, audio, rates := Input(url, |qs|, preset), Video(qs), Audio(), AudioRates(qs);
            var streams, hls, all := StreamMap(qs), Hls(hlsDir), Options(url, hlsDir, qs, preset);
            && all == (input + video) + ((audio + rates) + (streams + hls))
            && all == (((input + video) + audio) + rates) + (streams + hls)
            && all == (((input + video) + (audio + rates)) + streams) + hls
  {
    hide Input, Video, Audio, AudioRates, StreamMap, Hls;
    var input, video, audio, rates := Input(url, |qs|, preset), Video(qs), Audio(), AudioRates(qs);
    Regroup(input + video, audio, rates, StreamMap(qs) + Hls(hlsDir));
    Reassociate(input + video, audio + rates, StreamMap(qs), Hls(hlsDir));
  }

  lemma Regroup(a: seq<Opt>, b: seq<Opt>, c: seq<Opt>, d: seq<Opt>)
    ensures a + ((b + c) + d) == ((a + b) + c) + d
  {
  }

  lemma Reassociate(a: seq<Opt>, b: seq<Opt>, c: seq<Opt>, d: seq<Opt>)
    ensures a + (b + (c + d)) == ((a + b) + c) + d
  {
  }

  lemma OnceInMiddle(a: seq<Opt>, b: seq<Opt>, c: seq<Opt>, k: nat)
    requires k < |b|
    requires forall p :: 0 <= p < |b| && b[p].option == b[k].option ==> p == k
    requires Absent(a, b[k].option) && Absent(c, b[k].option)
    ensures Once((a + b) + c, b[k].option, b[k].value)
  {
    var all := (a + b) + c;
    assert all[|a| + k] == b[k];
    forall p | 0 <= p < |all| && all[p].option == b[k].option
      ensures p == |a| + k
    {
      if |a| <= p < |a| + |b| {
        assert all[p] == b[p - |a|];
      }
    }
  }

  lemma {:induction false} VideoAt(qs: seq<Quality>, i: nat, j: nat)
    requires i < |qs| && j < 6
    ensures 6 * i + j < |Video(qs)| && Video(qs)[6 * i + j] == VideoOptions(i, qs[i])[j]
  {
    hide VideoOptions;
    if i < |qs| - 1 {
      VideoAt(qs[..|qs| - 1], i, j);
    }
  }

  lemma VideoOnce(qs: seq<Quality>, i: nat, j: nat)
    requires i < |qs| && j < 6
    ensures forall p :: 0 <= p < |Video(qs)| && Video(qs)[p].option == VideoOptions(i, qs[i])[j].option ==> p == 6 * i + j
  {
    hide VideoOptions, Video;
    forall p | 0 <= p < |Video(qs)| && Video(qs)[p].option == VideoOptions(i, qs[i])[j].option
      ensures p == 6 * i + j
    {
      VideoAt(qs, p / 6, p % 6);
      SlotsDiffer(i, qs[i], j, p / 6, qs[p / 6], p % 6);
    }
  }

  lemma SlotOnce(url: string, hlsDir: string, qs: seq<Quality>, preset: string, i: nat, j: nat)
    requires i < |qs| && j < 6
    ensures Once(Options(url, hlsDir, qs, preset), VideoOptions(i, qs[i])[j].option, VideoOptions(i, qs[i])[j].value)
  {
    hide *;
    var option, h := VideoOptions(i, qs[i])[j].option, SlotHead(j);
    var after := (Audio() + AudioRates(qs)) + (StreamMap(qs) + Hls(hlsDir));
    OptionsCut(url, hlsDir, qs, preset);
    SlotStarts(i, qs[i], j);
    InputAvoids(url, |qs|, preset, h);
    OutputFixedAvoid(hlsDir, h);
    RatesAvoid(qs, h);
    OutputAvoids(hlsDir, qs, h);
    AvoidsBoth(Audio(), AudioRates(qs), h);
    AvoidsBoth(Audio() + AudioRates(qs), StreamMap(qs) + Hls(hlsDir), h);
    AbsentIfAvoids(Input(url, |qs|, preset), option, h);
    AbsentIfAvoids(after, option, h);
    VideoAt(qs, i, j);
    VideoOnce(qs, i, j);
    OnceInMiddle(Input(url, |qs|, preset), Video(qs), after, 6 * i + j);
  }

  lemma SlotOptions(i: nat, q: Quality)
    ensures VideoOptions(i, q)[0] ==
            Opt("-filter:v:" + Itoa(i), "scale=" + Itoa(q.width) + ":" + Itoa(q.height) + ",fps=" + Itoa(q.fps))
    ensures VideoOptions(i, q)[1] == Opt("-b:v:" + Itoa(i), Itoa(q.videoBitrateK) + "k")
    ensures VideoOptions(i, q)[2] == Opt("-maxrate:v:" + Itoa(i), Itoa(q.maxRateK) + "k")
    ensures VideoOptions(i, q)[3] == Opt("-bufsize:v:" + Itoa(i), Itoa(q.bufSizeK) + "k")
    ensures VideoOptions(i, q)[4] == Opt("-g:v:" + Itoa(i), Itoa(2 * q.fps))
    ensures VideoOptions(i, q)[5] == Opt("-keyint_min:v:" + Itoa(i), Itoa(2 * q.fps))
  {
    hide Itoa;
  }

  /** Variant i is scaled to its quality's size at its frame rate, within its quality's rates, with a key frame exactly
      every two seconds of frames; and no other option before the HLS output path says otherwise. */
  lemma VariantEncodedAt(url: string, hlsDir: string, qs: seq<Quality>, preset: string, i: nat)
    requires i < |qs|
    ensures var opts, q := Options(url, hlsDir, qs, preset), qs[i];
            && Once(opts, "-filter:v:" + Itoa(i),
                    "scale=" + Itoa(q.width) + ":" + Itoa(q.height) + ",fps=" + Itoa(q.fps))
            && Once(opts, "-b:v:" + Itoa(i), Itoa(q.videoBitrateK) + "k")
            && Once(opts, "-maxrate:v:" + Itoa(i), Itoa(q.maxRateK) + "k")
            && Once(opts, "-bufsize:v:" + Itoa(i), Itoa(q.bufSizeK) + "k")
            && Once(opts, "-g:v:" + Itoa(i), Itoa(2 * q.fps))
            && Once(opts, "-keyint_min:v:" + Itoa(i), Itoa(2 * q.fps))
  {
    hide *;
    SlotOptions(i, qs[i]);
    forall j | 0 <= j < 6
      ensures Once(Options(url, hlsDir, qs, preset), VideoOptions(i, qs[i])[j].option, VideoOptions(i, qs[i])[j].value)
    {
      SlotOnce(url, hlsDir, qs, preset, i, j);
    }
  }

  // -- Audio --

  lemma {:induction false} RateAt(qs: seq<Quality>, i: nat)
    requires i < |qs|
    ensures |AudioRates(qs)| == |qs|
    ensures AudioRates(qs)[i] == Opt("-b:a:" + Itoa(i), Itoa(qs[i].audioBitrateK) + "k")
  {
    hide Itoa;
    if i < |qs| - 1 {
      RateAt(qs[..|qs| - 1], i);
    } else if i > 0 {
      RateAt(qs[..|qs| - 1], i - 1);
    }
  }

  lemma RateOptionsDiffer(i: nat, k: nat)
    requires "-b:a:" + Itoa(i) == "-b:a:" + Itoa(k)
    ensures i == k
  {
    assert ("-b:a:" + Itoa(i))[5..] == Itoa(i) && ("-b:a:" + Itoa(k))[5..] == Itoa(k);
    ItoaInjective(i, k);
  }

  lemma RatesOnce(qs: seq<Quality>, i: nat)
    requires i < |qs|
    ensures forall p :: 0 <= p < |AudioRates(qs)| && AudioRates(qs)[p].option == "-b:a:" + Itoa(i) ==> p == i
  {
    hide Itoa, AudioRates;
    RateAt(qs, i);
    forall p | 0 <= p < |AudioRates(qs)| && AudioRates(qs)[p].option == "-b:a:" + Itoa(i) ensures p == i {
      RateAt(qs, p);
      RateOptionsDiffer(i, p);
    }
  }

  lemma RateStarts(i: nat)
    ensures Starts("-b:a:" + Itoa(i), AUDIO_RATE) && Indexed(AUDIO_RATE) && AUDIO_RATE != STREAM_MAP
  {
    hide Itoa;
  }

  /** Variant i has the audio rate of its quality, said once. */
  lemma AudioEncodedAt(url: string, hlsDir: string, qs: seq<Quality>, preset: string, i: nat)
    requires i < |qs|
    ensures Once(Options(url, hlsDir, qs, preset), "-b:a:" + Itoa(i), Itoa(qs[i].audioBitrateK) + "k")
  {
    hide *;
    var option, h := "-b:a:" + Itoa(i), AUDIO_RATE;
    var input, video := Input(url, |qs|, preset), Video(qs);
    var before, after := (input + video) + Audio(), StreamMap(qs) + Hls(hlsDir);
    OptionsCut(url, hlsDir, qs, preset);
    RateStarts(i);
    InputAvoids(url, |qs|, preset, h);
    VideoAvoids(qs, h);
    OutputFixedAvoid(hlsDir, h);
    OutputAvoids(hlsDir, qs, h);
    AvoidsBoth(input, video, h);
    AvoidsBoth(input + video, Audio(), h);
    AbsentIfAvoids(before, option, h);
    AbsentIfAvoids(after, option, h);
    RateAt(qs, i);
    RatesOnce(qs, i);
    OnceInMiddle(before, AudioRates(qs), after, i);
  }

  // ---- The stream map ----

  lemma StreamMapStarts(qs: seq<Quality>)
    ensures StreamMap(qs) == [Opt("-var_stream_map", Join(Streams(qs), ' '))]
    ensures Starts("-var_stream_map", STREAM_MAP) && Indexed(STREAM_MAP) && STREAM_MAP != AUDIO_RATE
  {
  }

  /** There is one stream map. */
  lemma StreamMapOnce(url: string, hlsDir: string, qs: seq<Quality>, preset: string)
    ensures Once(Options(url, hlsDir, qs, preset), "-var_stream_map", Join(Streams(qs), ' '))
  {
    hide *;
    var h := STREAM_MAP;
    var front, audio := Input(url, |qs|, preset) + Video(qs), Audio() + AudioRates(qs);
    OptionsCut(url, hlsDir, qs, preset);
    StreamMapStarts(qs);
    InputAvoids(url, |qs|, preset, h);
    VideoAvoids(qs, h);
    OutputFixedAvoid(hlsDir, h);
    RatesAvoid(qs, h);
    AvoidsBoth(Input(url, |qs|, preset), Video(qs), h);
    AvoidsBoth(Audio(), AudioRates(qs), h);
    AvoidsBoth(front, audio, h);
    AbsentIfAvoids(front + audio, "-var_stream_map", h);
    AbsentIfAvoids(Hls(hlsDir), "-var_stream_map", h);
    OnceInMiddle(front + audio, StreamMap(qs), Hls(hlsDir), 0);
  }

  lemma StreamFields(x: string, name: string)
    ensures "v:" + x + ",a:" + x + ",name:" + name == Join(["v:" + x, "a:" + x, "name:" + name], ',')
  {
    var v, a, n := "v:" + x, "a:" + x, "name:" + name;
    assert [v, a, n][1..] == [a, n] && [a, n][1..] == [n];
    assert Join([a, n], ',') == a + [','] + n;
    assert Join([v, a, n], ',') == v + [','] + (a + [','] + n);
    assert v + ",a:" + x + ",name:" + name == v + [','] + (a + [','] + n);
  }

  lemma StreamReadsBack(i: nat, q: Quality)
    requires ',' !in q.name
    ensures Split(Stream(i, q), ',') == ["v:" + Itoa(i), "a:" + Itoa(i), "name:" + q.name]
  {
    hide Join, Split, Itoa;
    ItoaIsPlain(i, ',');
    StreamFields(Itoa(i), q.name);
    SplitJoin(["v:" + Itoa(i), "a:" + Itoa(i), "name:" + q.name], ',');
  }

  lemma StreamIsPlain(i: nat, q: Quality)
    requires ' ' !in q.name
    ensures ' ' !in Stream(i, q)
  {
    hide Itoa;
    ItoaIsPlain(i, ' ');
  }

  /** Read back, the stream map is one entry per quality in order, and entry i pairs video i with audio i under the
      name of quality i. */
  lemma StreamsReadBack(qs: seq<Quality>, i: nat)
    requires forall q :: q in qs ==> ' ' !in q.name && ',' !in q.name
    requires i < |qs|
    ensures var entries := Split(Join(Streams(qs), ' '), ' ');
            |entries| == |qs| && Split(entries[i], ',') == ["v:" + Itoa(i), "a:" + Itoa(i), "name:" + qs[i].name]
  {
    hide Stream, Join, Split, Itoa;
    forall s | s in Streams(qs) ensures ' ' !in s {
      var k :| 0 <= k < |qs| && s == Stream(k, qs[k]);
      StreamIsPlain(k, qs[k]);
    }
    SplitJoin(Streams(qs), ' ');
    StreamReadsBack(i, qs[i]);
  }

  // ---- What does not depend on the variant ----

  lemma {:induction false} MapAt(n: nat, k: nat)
    requires k < n
    ensures |Maps(n)| == 2 * n
    ensures Maps(n)[2 * k] == Opt("-map", "0:v:0") && Maps(n)[2 * k + 1] == Opt("-map", "0:a:0")
  {
    if k < n - 1 {
      MapAt(n - 1, k);
    } else if k > 0 {
      MapAt(n - 1, k - 1);
    }
  }

  /** The command line begins with the input, maps the one video and the one audio stream for each variant, and goes on
      with the codec and the preset. */
  lemma InputOptions(url: string, hlsDir: string, qs: seq<Quality>, preset: string)
    ensures var opts, n := Options(url, hlsDir, qs, preset), |qs|;
            && |opts| >= 2 * n + 5
            && opts[0] == Opt("-listen", "1") && opts[1] == Opt("-i", url)
            && (forall k :: 0 <= k < n ==> opts[2 + 2 * k] == Opt("-map", "0:v:0") && opts[3 + 2 * k] == Opt("-map", "0:a:0"))
            && opts[2 * n + 2] == Opt("-c:v", "libx264") && opts[2 * n + 3] == Opt("-preset", preset)
            && opts[2 * n + 4] == Opt("-sc_threshold", "0")
  {
    hide Video, AudioRates, Audio, Hls, StreamMap;
    var n := |qs|;
    MapLength(n);
    forall k | 0 <= k < n
      ensures Maps(n)[2 * k] == Opt("-map", "0:v:0") && Maps(n)[2 * k + 1] == Opt("-map", "0:a:0")
    {
      MapAt(n, k);
    }
    hide Maps;
  }

  lemma {:induction false} MapLength(n: nat)
    ensures |Maps(n)| == 2 * n
  {
    if n > 0 {
      MapLength(n - 1);
    }
  }

  lemma {:induction false} RatesLength(qs: seq<Quality>)
    ensures |AudioRates(qs)| == |qs|
  {
    if qs != [] {
      RatesLength(qs[..|qs| - 1]);
    }
  }

  lemma FixedOutput(hlsDir: string, qs: seq<Quality>)
    ensures Audio() == [Opt("-c:a", "aac"), Opt("-ar", "48000")]
    ensures StreamMap(qs) == [Opt("-var_stream_map", Join(Streams(qs), ' '))]
    ensures Hls(hlsDir) ==
            [ Opt("-f", "hls"), Opt("-hls_time", "2"), Opt("-hls_list_size", "5"),
              Opt("-hls_flags", "delete_segments+independent_segments+temp_file+program_date_time"),
              Opt("-master_pl_name", "master.m3u8"), Opt("-hls_segment_filename", hlsDir + "/%v/seg%03d.ts") ]
  {
  }

  lemma InputLength(url: string, n: nat, preset: string)
    ensures |Input(url, n, preset)| == 2 * n + 5
  {
    MapLength(n);
    hide Maps;
  }

  lemma CutAt(front: seq<Opt>, a: seq<Opt>, b: seq<Opt>, c: seq<Opt>, d: seq<Opt>)
    ensures var all := front + ((a + b) + (c + d));
            && all[|front|..|front| + |a|] == a
            && all[|front| + |a| + |b|..|front| + |a| + |b| + |c|] == c
            && all[|front| + |a| + |b| + |c|..] == d
  {
  }

  /** It ends with the audio codec, the audio rates, the stream map, and the options of the HLS output. */
  lemma OutputOptions(url: string, hlsDir: string, qs: seq<Quality>, preset: string)
    ensures var opts, n := Options(url, hlsDir, qs, preset), |qs|;
            && |opts| == 9 * n + 14
            && opts[8 * n + 5..8 * n + 7] == [Opt("-c:a", "aac"), Opt("-ar", "48000")]
            && opts[9 * n + 7..9 * n + 8] == [Opt("-var_stream_map", Join(Streams(qs), ' '))]
            && opts[9 * n + 8..] ==
               [ Opt("-f", "hls"), Opt("-hls_time", "2"), Opt("-hls_list_size", "5"),
                 Opt("-hls_flags", "delete_segments+independent_segments+temp_file+program_date_time"),
                 Opt("-master_pl_name", "master.m3u8"), Opt("-hls_segment_filename", hlsDir + "/%v/seg%03d.ts") ]
  {
    hide *;
    InputLength(url, |qs|, preset);
    RatesLength(qs);
    FixedOutput(hlsDir, qs);
    OptionsCut(url, hlsDir, qs, preset);
    CutAt(Input(url, |qs|, preset) + Video(qs), Audio(), AudioRates(qs), StreamMap(qs), Hls(hlsDir));
  }

  // -- The one input --

  /** Options longer than "-i" and "-f". */
  predicate LongOptions(opts: seq<Opt>) { forall j :: 0 <= j < |opts| ==> |opts[j].option| > 2 }

  lemma LongBoth(a: seq<Opt>, b: seq<Opt>)
    requires LongOptions(a) && LongOptions(b)
    ensures LongOptions(a + b)
  {
  }

  lemma SlotLong(i: nat, q: Quality, j: nat)
    requires j < 6
    ensures |VideoOptions(i, q)[j].option| > 2
  {
    SlotOption(i, q, j);
    hide VideoOptions, Itoa;
  }

  lemma {:induction false} VideoLong(qs: seq<Quality>)
    ensures LongOptions(Video(qs))
  {
    hide VideoOptions;
    if qs != [] {
      var i := |qs| - 1;
      VideoLong(qs[..i]);
      forall j | 0 <= j < 6 ensures |VideoOptions(i, qs[i])[j].option| > 2 {
        SlotLong(i, qs[i], j);
      }
      LongBoth(Video(qs[..i]), VideoOptions(i, qs[i]));
    }
  }

  lemma {:induction false} RatesLong(qs: seq<Quality>)
    ensures LongOptions(AudioRates(qs))
  {
    hide Itoa;
    if qs != [] {
      RatesLong(qs[..|qs| - 1]);
    }
  }

  lemma {:induction false} MapsLong(n: nat)
    ensures LongOptions(Maps(n))
  {
    if n > 0 {
      MapsLong(n - 1);
    }
  }

  lemma FixedLong(preset: string, qs: seq<Quality>)
    ensures LongOptions(Codec(preset)) && LongOptions(Audio()) && LongOptions(StreamMap(qs))
  {
    hide Join, Streams;
  }

  lemma NoInputInOutput(hlsDir: string)
    ensures Absent(Hls(hlsDir), "-i") && Absent([Opt("-listen", "1")], "-i")
  {
  }

  lemma OneInput(url: string, rest: seq<Opt>, hls: seq<Opt>)
    requires LongOptions(rest) && Absent(hls, "-i")
    ensures Once(([Opt("-listen", "1")] + [Opt("-i", url)]) + (rest + hls), "-i", url)
  {
    NoInputInOutput("");
    assert Absent(rest + hls, "-i");
    hide Once;
    OnceInMiddle([Opt("-listen", "1")], [Opt("-i", url)], rest + hls, 0);
  }

  lemma InputFirst(url: string, hlsDir: string, qs: seq<Quality>, preset: string)
    ensures Options(url, hlsDir, qs, preset) == ([Opt("-listen", "1")] + [Opt("-i", url)]) +
            (((((Maps(|qs|) + Codec(preset)) + Video(qs)) + (Audio() + AudioRates(qs))) + StreamMap(qs)) + Hls(hlsDir))
  {
    hide *;
    OptionsCut(url, hlsDir, qs, preset);
    InputIs(url, |qs|, preset);
    var l, maps, codec, video := Listen(url), Maps(|qs|), Codec(preset), Video(qs);
    var audio, streams, hls := Audio() + AudioRates(qs), StreamMap(qs), Hls(hlsDir);
    Associate(l, maps, codec);
    Associate(l, maps + codec, video);
    Associate(l, (maps + codec) + video, audio);
    Associate(l, ((maps + codec) + video) + audio, streams);
    Associate(l, (((maps + codec) + video) + audio) + streams, hls);
  }

  lemma InputIs(url: string, n: nat, preset: string)
    ensures Listen(url) == [Opt("-listen", "1")] + [Opt("-i", url)]
    ensures Input(url, n, preset) == (Listen(url) + Maps(n)) + Codec(preset)
  {
    hide Maps, Codec;
  }

  lemma Associate(a: seq<Opt>, b: seq<Opt>, c: seq<Opt>)
    ensures (a + b) + c == a + (b + c)
  {
  }

  /** There is one input, the stream's address. */
  lemma InputOnce(url: string, hlsDir: string, qs: seq<Quality>, preset: string)
    ensures Once(Options(url, hlsDir, qs, preset), "-i", url)
  {
    hide *;
    InputFirst(url, hlsDir, qs, preset);
    MapsLong(|qs|);
    VideoLong(qs);
    RatesLong(qs);
    FixedLong(preset, qs);
    NoInputInOutput(hlsDir);
    var maps, codec, video, audio := Maps(|qs|), Codec(preset), Video(qs), Audio();
    LongBoth(maps, codec);
    LongBoth(maps + codec, video);
    LongBoth(audio, AudioRates(qs));
    LongBoth((maps + codec) + video, audio + AudioRates(qs));
    LongBoth(((maps + codec) + video) + (audio + AudioRates(qs)), StreamMap(qs));
    OneInput(url, (((maps + codec) + video) + (audio + AudioRates(qs))) + StreamMap(qs), Hls(hlsDir));
  }

  // -- The one preset --

  lemma NoOtherPreset(url: string, hlsDir: string, qs: seq<Quality>)
    ensures Avoids(Listen(url), PRESET) && Avoids([Opt("-c:v", "libx264")], PRESET)
    ensures Avoids([Opt("-sc_threshold", "0")], PRESET) && Avoids(StreamMap(qs), PRESET)
    ensures Starts("-preset", PRESET) && PRESET != AUDIO_RATE && PRESET != Head('m', 'a', 'p')
  {
    hide Join, Streams;
  }

  lemma NoPresetInOutput(hlsDir: string)
    ensures Avoids(Audio(), PRESET) && Avoids(Hls(hlsDir), PRESET)
  {
  }

  lemma PresetInMiddle(url: string, hlsDir: string, qs: seq<Quality>, preset: string)
    ensures var out := (Audio() + AudioRates(qs)) + (StreamMap(qs) + Hls(hlsDir));
            Options(url, hlsDir, qs, preset) ==
            (((Listen(url) + Maps(|qs|)) + [Opt("-c:v", "libx264")]) + [Opt("-preset", preset)]) +
            (([Opt("-sc_threshold", "0")] + Video(qs)) + out)
  {
    hide *;
    var front, a, b, c := Listen(url) + Maps(|qs|), [Opt("-c:v", "libx264")], [Opt("-preset", preset)], [Opt("-sc_threshold", "0")];
    var out := (Audio() + AudioRates(qs)) + (StreamMap(qs) + Hls(hlsDir));
    OptionsCut(url, hlsDir, qs, preset);
    InputIs(url, |qs|, preset);
    CodecIs(preset);
    Reassociate(front, a, b, c);
    Associate(a, b, c);
    Associate((front + a) + b, c, Video(qs));
    Associate((front + a) + b, c + Video(qs), out);
  }

  lemma CodecIs(preset: string)
    ensures Codec(preset) == ([Opt("-c:v", "libx264")] + [Opt("-preset", preset)]) + [Opt("-sc_threshold", "0")]
  {
  }

  /** There is one preset, the one asked for. */
  lemma PresetOnce(url: string, hlsDir: string, qs: seq<Quality>, preset: string)
    ensures Once(Options(url, hlsDir, qs, preset), "-preset", preset)
  {
    hide *;
    var front, a, b, c := Listen(url) + Maps(|qs|), [Opt("-c:v", "libx264")], [Opt("-preset", preset)], [Opt("-sc_threshold", "0")];
    var out := (Audio() + AudioRates(qs)) + (StreamMap(qs) + Hls(hlsDir));
    PresetInMiddle(url, hlsDir, qs, preset);
    NoOtherPreset(url, hlsDir, qs);
    NoPresetInOutput(hlsDir);
    MapsAvoid(|qs|, PRESET);
    VideoAvoids(qs, PRESET);
    RatesAvoid(qs, PRESET);
    AvoidsBoth(Listen(url), Maps(|qs|), PRESET);
    AvoidsBoth(front, a, PRESET);
    AvoidsBoth(Audio(), AudioRates(qs), PRESET);
    AvoidsBoth(StreamMap(qs), Hls(hlsDir), PRESET);
    AvoidsBoth(Audio() + AudioRates(qs), StreamMap(qs) + Hls(hlsDir), PRESET);
    AvoidsBoth(c, Video(qs), PRESET);
    AvoidsBoth(c + Video(qs), out, PRESET);
    AbsentIfAvoids(front + a, "-preset", PRESET);
    AbsentIfAvoids((c + Video(qs)) + out, "-preset", PRESET);
    OnceInMiddle(front + a, b, (c + Video(qs)) + out, 0);
  }
}
