/** Rendering a chat message as text and emote images (web/desent-web/apps/web/app/page.tsx, renderMessageText).

    The regular expression is /:([a-zA-Z0-9_]+):/g. `Exec` is what one call of `regex.exec` finds from its
    `lastIndex`; `ExecLeftmost` says that it is the leftmost match. */
module Emotes {
  import opened Wrappers

  datatype Emote = Emote(code: string, filename: string)
  datatype Part = Text(text: string) | Image(key: nat, emote: Emote)
  datatype Rendered = Plain(text: string) | Parts(parts: seq<Part>)
  datatype Span = Span(start: nat, end: nat)

  predicate IsWord(c: char) {
    'a' <= c <= 'z' || 'A' <= c <= 'Z' || '0' <= c <= '9' || c == '_'
  }

  /** s[i..j] is a colon, one or more word characters, and a colon. */
  predicate IsMatch(s: string, i: int, j: int) {
    0 <= i && i + 2 < j <= |s| && s[i] == ':' && s[j - 1] == ':' && forall k :: i < k < j - 1 ==> IsWord(s[k])
  }

  function WordEnd(s: string, i: nat): (e: nat)
    requires i <= |s|
    ensures i <= e <= |s| && (forall k :: i <= k < e ==> IsWord(s[k])) && (e < |s| ==> !IsWord(s[e]))
    decreases |s| - i
  {
    if i < |s| && IsWord(s[i]) then WordEnd(s, i + 1) else i
  }

  function Exec(s: string, from: nat): (m: Option<Span>)
    ensures m.Some? ==> from <= m.value.start && IsMatch(s, m.value.start, m.value.end)
    decreases |s| - from
  {
    if from >= |s| then None
    else
      var e := if s[from] == ':' then WordEnd(s, from + 1) else from;
      if e > from + 1 && e < |s| && s[e] == ':' then Some(Span(from, e + 1))
      else Exec(s, from + 1)
  }

  /** No match starts before the one found, and the one found is the only one at its start. */
  lemma {:induction false} ExecLeftmost(s: string, from: nat, i: nat, j: nat)
    requires from <= i && IsMatch(s, i, j)
    ensures var m := Exec(s, from);
            m.Some? && (m.value.start < i || m.value == Span(i, j))
    decreases |s| - from
  {
    var e := if s[from] == ':' then WordEnd(s, from + 1) else from;
    if i == from {
      assert e == j - 1;
    } else if !(e > from + 1 && e < |s| && s[e] == ':') {
      ExecLeftmost(s, from + 1, i, j);
    }
  }

  /** No emote before this one has its code. */
  ghost predicate FirstOfCode(emotes: seq<Emote>, e: Emote) {
    exists k :: 0 <= k < |emotes| && emotes[k] == e && forall j :: 0 <= j < k ==> emotes[j].code != e.code
  }

  /** The first emote with this code, if any. */
  function Find(emotes: seq<Emote>, code: string): (r: Option<Emote>)
    ensures r.Some? ==> r.value in emotes && r.value.code == code && FirstOfCode(emotes, r.value)
    ensures r.None? ==> forall e :: e in emotes ==> e.code != code
  {
    if emotes == [] then None else if emotes[0].code == code then Some(emotes[0]) else Find(emotes[1..], code)
  }

  function Lookup(emotes: seq<Emote>, text: string, m: Span): Option<Emote>
    requires IsMatch(text, m.start, m.end)
  {
    Find(emotes, text[m.start + 1..m.end - 1])
  }

  function TextPart(s: string): seq<Part> { if s != "" then [Text(s)] else [] }

  /** What one match pushes, when text up to `last` is out. */
  function Emit(emotes: seq<Emote>, text: string, last: nat, m: Span): seq<Part>
    requires last <= m.start && IsMatch(text, m.start, m.end)
  {
    match Lookup(emotes, text, m)
    case None => []
    case Some(emote) => TextPart(text[last..m.start]) + [Image(m.start, emote)]
  }

  function Next(emotes: seq<Emote>, text: string, last: nat, m: Span): nat
    requires IsMatch(text, m.start, m.end)
  {
    if Lookup(emotes, text, m).None? then last else m.end
  }

  /** The parts still to be pushed when text up to `last` is out and the scan stands at `from`. */
  function Scan(emotes: seq<Emote>, text: string, last: nat, from: nat): seq<Part>
    requires last <= from <= |text|
    decreases |text| - from
  {
    match Exec(text, from)
    case None => TextPart(text[last..])
    case Some(m) => Emit(emotes, text, last, m) + Scan(emotes, text, Next(emotes, text, last, m), m.end)
  }

  /** The component's loop. `from` is the regular expression's lastIndex. */
  method RenderMessageText(emotes: seq<Emote>, text: string) returns (r: Rendered)
    ensures r == if emotes == [] || Scan(emotes, text, 0, 0) == [] then Plain(text) else Parts(Scan(emotes, text, 0, 0))
  {
    if emotes == [] {
      return Plain(text);
    }
    var parts: seq<Part>, last: nat, from: nat := [], 0, 0;
    var m := Exec(text, from);
    while m.Some?
      invariant last <= from <= |text| && m == Exec(text, from)
      invariant parts + Scan(emotes, text, last, from) == Scan(emotes, text, 0, 0)
      decreases |text| - from
    {
      ghost var before, last0 := parts, last;
      Regroup(before, Emit(emotes, text, last, m.value), Scan(emotes, text, Next(emotes, text, last, m.value), m.value.end));
      var emote := Lookup(emotes, text, m.value);
      if emote.Some? {
        if m.value.start > last {
          parts := parts + [Text(text[last..m.value.start])];
        }
        parts := parts + [Image(m.value.start, emote.value)];
        last := m.value.end;
      }
      assert parts == before + Emit(emotes, text, last0, m.value);
      from := m.value.end;
      m := Exec(text, from);
    }
    if last < |text| {
      parts := parts + [Text(text[last..])];
    }
    return if |parts| > 0 then Parts(parts) else Plain(text);
  }

  // ---- Losslessness ----

  function Source(p: Part): string {
    match p
    case Text(t) => t
    case Image(_, e) => ":" + e.code + ":"
  }

  function Flatten(parts: seq<Part>): string {
    if parts == [] then "" else Source(parts[0]) + Flatten(parts[1..])
  }

  lemma Regroup<T>(a: seq<T>, b: seq<T>, c: seq<T>)
    ensures (a + b) + c == a + (b + c)
  {
  }

  lemma {:induction false} FlattenConcat(a: seq<Part>, b: seq<Part>)
    ensures Flatten(a + b) == Flatten(a) + Flatten(b)
  {
    if a == [] {
      assert a + b == b;
    } else {
      var ab, first := a + b, Source(a[0]);
      assert ab[1..] == a[1..] + b;
      calc {
        Flatten(ab);
        first + Flatten(a[1..] + b);
        { FlattenConcat(a[1..], b); }
        first + (Flatten(a[1..]) + Flatten(b));
        { Regroup(first, Flatten(a[1..]), Flatten(b)); }
        Flatten(a) + Flatten(b);
      }
    }
  }

  lemma FlattenText(s: string)
    ensures Flatten(TextPart(s)) == s
  {
  }

  lemma FlattenTextThenImage(before: string, key: nat, e: Emote)
    ensures Flatten(TextPart(before) + [Image(key, e)]) == before + Source(Image(key, e))
  {
    var image := [Image(key, e)];
    FlattenText(before);
    FlattenConcat(TextPart(before), image);
    assert image[1..] == [];
    assert Source(image[0]) + "" == Source(image[0]);
  }

  lemma SourceOfMatch(text: string, m: Span, key: nat, e: Emote)
    requires IsMatch(text, m.start, m.end) && e.code == text[m.start + 1..m.end - 1]
    ensures Source(Image(key, e)) == text[m.start..m.end]
  {
    hide IsMatch;
    MatchEnds(text, m);
  }

  lemma MatchEnds(text: string, m: Span)
    requires IsMatch(text, m.start, m.end)
    ensures m.start + 2 < m.end <= |text| && text[m.start] == ':' == text[m.end - 1]
  {
  }

  lemma Adjacent(s: string, a: nat, b: nat, c: nat)
    requires a <= b <= c <= |s|
    ensures s[a..b] + s[b..c] == s[a..c]
  {
  }

  lemma FlattenEmit(emotes: seq<Emote>, text: string, last: nat, m: Span)
    requires last <= m.start && IsMatch(text, m.start, m.end)
    ensures Flatten(Emit(emotes, text, last, m)) == text[last..Next(emotes, text, last, m)]
  {
    match Lookup(emotes, text, m)
    case None =>
    case Some(emote) =>
      FlattenTextThenImage(text[last..m.start], m.start, emote);
      SourceOfMatch(text, m, m.start, emote);
      Adjacent(text, last, m.start, m.end);
  }

  lemma {:induction false} ScanLossless(emotes: seq<Emote>, text: string, last: nat, from: nat)
    requires last <= from <= |text|
    ensures Flatten(Scan(emotes, text, last, from)) == text[last..]
    decreases |text| - from
  {
    var found := Exec(text, from);
    if found.None? {
      FlattenText(text[last..]);
    } else {
      var m := found.value;
      var next := Next(emotes, text, last, m);
      ScanLossless(emotes, text, next, m.end);
      calc {
        Flatten(Scan(emotes, text, last, from));
        { FlattenConcat(Emit(emotes, text, last, m), Scan(emotes, text, next, m.end)); }
        Flatten(Emit(emotes, text, last, m)) + text[next..];
        { FlattenEmit(emotes, text, last, m); }
        text[last..next] + text[next..];
        text[last..];
      }
    }
  }

  function Shown(r: Rendered): string {
    match r
    case Plain(text) => text
    case Parts(parts) => Flatten(parts)
  }

  /** Text parts are never empty, images are known emotes, and image keys strictly increase. */
  predicate WellFormed(emotes: seq<Emote>, from: nat, parts: seq<Part>) {
    && (forall p :: p in parts ==> if p.Text? then p.text != "" else p.emote in emotes && p.key >= from)
    && (forall i, j :: 0 <= i < j < |parts| && parts[i].Image? && parts[j].Image? ==> parts[i].key < parts[j].key)
  }

  lemma WellFormedConcat(emotes: seq<Emote>, from: nat, a: seq<Part>, mid: nat, b: seq<Part>)
    requires WellFormed(emotes, from, a) && WellFormed(emotes, mid, b) && from <= mid
    requires forall p :: p in a && p.Image? ==> p.key < mid
    ensures WellFormed(emotes, from, a + b)
  {
  }

  lemma {:induction false} PartsWellFormed(emotes: seq<Emote>, text: string, last: nat, from: nat)
    requires last <= from <= |text|
    ensures WellFormed(emotes, from, Scan(emotes, text, last, from))
    decreases |text| - from
  {
    var found := Exec(text, from);
    if found.Some? {
      var m := found.value;
      var next := Next(emotes, text, last, m);
      PartsWellFormed(emotes, text, next, m.end);
      WellFormedConcat(emotes, from, Emit(emotes, text, last, m), m.end, Scan(emotes, text, next, m.end));
    }
  }

  // ---- Exactly which emotes are drawn ----

  /** The global scan of the regular expression: leftmost matches that do not overlap. */
  function Matches(text: string, from: nat): seq<Span>
    decreases |text| - from
  {
    match Exec(text, from)
    case None => []
    case Some(m) => [m] + Matches(text, m.end)
  }

  predicate Draws(parts: seq<Part>, key: nat) {
    exists p :: p in parts && p.Image? && p.key == key
  }

  predicate Closes(ms: seq<Span>, i: nat) {
    exists m :: m in ms && m.end == i + 1
  }

  lemma {:induction false} MatchesLater(text: string, from: nat)
    ensures forall m :: m in Matches(text, from) ==> from <= m.start && IsMatch(text, m.start, m.end)
    decreases |text| - from
  {
    var m := Exec(text, from);
    if m.Some? {
      MatchesLater(text, m.value.end);
    }
  }

  lemma {:induction false} DrawsScannedKnown(emotes: seq<Emote>, text: string, last: nat, from: nat, i: nat, j: nat)
    requires last <= from <= |text| && from <= i && IsMatch(text, i, j)
    ensures Draws(Scan(emotes, text, last, from), i) <==>
            Span(i, j) in Matches(text, from) && Lookup(emotes, text, Span(i, j)).Some?
    decreases |text| - from
  {
    ExecLeftmost(text, from, i, j);
    var m := Exec(text, from).value;
    var next := Next(emotes, text, last, m);
    var head, rest := Emit(emotes, text, last, m), Scan(emotes, text, next, m.end);
    DrawsConcat(head, rest, i);
    assert Draws(head, i) <==> m.start == i && Lookup(emotes, text, m).Some? by {
      if Lookup(emotes, text, m).Some? {
        assert head[|head| - 1] in head;
      }
    }
    if m.end <= i {
      DrawsScannedKnown(emotes, text, next, m.end, i, j);
    } else {
      PartsWellFormed(emotes, text, next, m.end);
      MatchesLater(text, m.end);
    }
  }

  lemma DrawsConcat(a: seq<Part>, b: seq<Part>, key: nat)
    ensures Draws(a + b, key) <==> Draws(a, key) || Draws(b, key)
  {
  }

  lemma {:induction false} ScannedUnlessColonTaken(text: string, from: nat, i: nat, j: nat)
    requires from <= i && IsMatch(text, i, j)
    ensures Span(i, j) in Matches(text, from) <==> !Closes(Matches(text, from), i)
    decreases |text| - from
  {
    ExecLeftmost(text, from, i, j);
    var m := Exec(text, from).value;
    var ms := Matches(text, from);
    assert forall x :: x in ms <==> x == m || x in Matches(text, m.end);
    MatchesLater(text, m.end);
    if m.end <= i {
      ScannedUnlessColonTaken(text, m.end, i, j);
    } else if m.start < i {
      assert m.end == i + 1;
    }
  }

  /** An occurrence of a known emote's code is drawn if and only if its opening colon did not close an earlier match. */
  lemma DrawnUnlessColonTaken(emotes: seq<Emote>, text: string, i: nat, j: nat)
    requires IsMatch(text, i, j) && Lookup(emotes, text, Span(i, j)).Some?
    ensures Draws(Scan(emotes, text, 0, 0), i) <==> !Closes(Matches(text, 0), i)
  {
    DrawsScannedKnown(emotes, text, 0, 0, i, j);
    ScannedUnlessColonTaken(text, 0, i, j);
  }

  // ---- What is drawn, by the text itself ----

  predicate IsCodeChar(c: char) {
    c in "abcdefghijklmnopqrstuvwxyz" || c in "ABCDEFGHIJKLMNOPQRSTUVWXYZ" || c in "0123456789" || c == '_'
  }

  lemma LowerCase(c: char)
    ensures c in "abcdefghijklmnopqrstuvwxyz" <==> 'a' <= c <= 'z'
  {
  }

  lemma UpperCase(c: char)
    ensures c in "ABCDEFGHIJKLMNOPQRSTUVWXYZ" <==> 'A' <= c <= 'Z'
  {
  }

  lemma Digits(c: char)
    ensures c in "0123456789" <==> '0' <= c <= '9'
  {
  }

  /** The character class, listed. */
  lemma WordCharacters(c: char)
    ensures IsWord(c) <==> IsCodeChar(c)
  {
    LowerCase(c);
    UpperCase(c);
    Digits(c);
  }

  ghost predicate IsCode(code: string) {
    code != "" && forall c :: c in code ==> IsCodeChar(c)
  }

  lemma WrittenIsMatch(emotes: seq<Emote>, pre: string, e: Emote, post: string)
    requires IsCode(e.code) && e in emotes
    ensures var text, i, j := pre + ":" + e.code + ":" + post, |pre|, |pre| + |e.code| + 2;
            IsMatch(text, i, j) && Lookup(emotes, text, Span(i, j)).Some?
  {
    var text, i, j := pre + ":" + e.code + ":" + post, |pre|, |pre| + |e.code| + 2;
    assert text[i + 1..j - 1] == e.code;
    forall k | i < k < j - 1
      ensures IsWord(text[k])
    {
      assert text[k] == e.code[k - i - 1] && text[k] in e.code;
      WordCharacters(text[k]);
    }
  }

  lemma NothingCloses(pre: string, text: string)
    requires pre <= text && ':' !in pre
    ensures !Closes(Matches(text, 0), |pre|)
  {
    MatchesLater(text, 0);
    if m :| m in Matches(text, 0) && m.end == |pre| + 1 {
      assert text[m.start] == pre[m.start];
    }
  }

  /** A known code written between colons is drawn if and only if the first of them did not close an earlier match,
      as it cannot where no colon comes before it. */
  lemma WrittenIsDrawn(emotes: seq<Emote>, pre: string, e: Emote, post: string)
    requires IsCode(e.code) && e in emotes
    ensures var text := pre + ":" + e.code + ":" + post;
            && (Draws(Scan(emotes, text, 0, 0), |pre|) <==> !Closes(Matches(text, 0), |pre|))
            && (':' !in pre ==> Draws(Scan(emotes, text, 0, 0), |pre|))
  {
    var text, i := pre + ":" + e.code + ":" + post, |pre|;
    hide *;
    WrittenIsMatch(emotes, pre, e, post);
    DrawnUnlessColonTaken(emotes, text, i, i + |e.code| + 2);
    if ':' !in pre {
      NothingCloses(pre, text);
    }
  }

  /** The image stands where its emote's code is written between colons, and the emote is the first of that code. */
  ghost predicate Stands(emotes: seq<Emote>, text: string, p: Part) {
    p.Image? ==>
      && IsCode(p.emote.code) && FirstOfCode(emotes, p.emote)
      && p.key + |p.emote.code| + 2 <= |text|
      && text[p.key..p.key + |p.emote.code| + 2] == ":" + p.emote.code + ":"
  }

  lemma EmittedStands(emotes: seq<Emote>, text: string, last: nat, m: Span)
    requires last <= m.start && IsMatch(text, m.start, m.end)
    ensures forall p :: p in Emit(emotes, text, last, m) ==> Stands(emotes, text, p)
  {
    var found := Lookup(emotes, text, m);
    if found.Some? {
      SourceOfMatch(text, m, m.start, found.value);
      forall c | c in found.value.code
        ensures IsCodeChar(c)
      {
        var k :| m.start < k < m.end - 1 && text[k] == c;
        WordCharacters(c);
      }
    }
  }

  /** Nothing else is drawn. */
  lemma {:induction false} DrawnIsWritten(emotes: seq<Emote>, text: string, last: nat, from: nat)
    requires last <= from <= |text|
    ensures forall p :: p in Scan(emotes, text, last, from) ==> Stands(emotes, text, p)
    decreases |text| - from
  {
    var found := Exec(text, from);
    if found.Some? {
      var m := found.value;
      EmittedStands(emotes, text, last, m);
      DrawnIsWritten(emotes, text, Next(emotes, text, last, m), m.end);
    }
  }

  /** Writing every image back as its code gives the message, whatever the text and the emote list. */
  method RenderLosslessly(emotes: seq<Emote>, text: string) returns (r: Rendered)
    ensures Shown(r) == text
    ensures r.Plain? <==> emotes == [] || text == ""
    ensures r.Parts? ==> forall p :: p in r.parts ==> Stands(emotes, text, p) && (p.Text? ==> p.text != "")
  {
    r := RenderMessageText(emotes, text);
    ScanLossless(emotes, text, 0, 0);
    PartsWellFormed(emotes, text, 0, 0);
    DrawnIsWritten(emotes, text, 0, 0);
  }

  /** Such a colon in use: in ":hi:smile:", where ":hi:" is no emote, ":smile:" is not drawn. */
  lemma UndrawnSmile(filename: string)
    ensures var emotes, text := [Emote("smile", filename)], ":hi:smile:";
            && IsMatch(text, 3, 10) && Lookup(emotes, text, Span(3, 10)) == Some(emotes[0])
            && Scan(emotes, text, 0, 0) == [Text(text)]
  {
    var emotes, text := [Emote("smile", filename)], ":hi:smile:";
    assert IsMatch(text, 0, 4) && IsMatch(text, 3, 10);
    assert text[4..9] == "smile" && text[1..3] == "hi";
    ExecLeftmost(text, 0, 0, 4);
    assert Lookup(emotes, text, Span(3, 10)).Some?;
    NoSecondMatch(text);
  }

  lemma NoSecondMatch(text: string)
    requires text == ":hi:smile:"
    ensures Exec(text, 4) == None
  {
    assert Exec(text, 10) == None;
    assert WordEnd(text, 10) == 10;
    assert Exec(text, 9) == None;
    assert Exec(text, 8) == Exec(text, 7) == Exec(text, 6) == Exec(text, 5) == Exec(text, 4) == None;
  }
}
