/** Drawing a block of a streaming prompt: segments are rewritten for placeholders, or to drop
    their templates, and put back (src/prompt/streaming.go, with writeSegment of segments.go, the
    marker texts of src/config/segment.go and the color cycle). Glyphs and separators are left out. */
module PlaceholderDrawing {

  /** A segment's drawing state, as `segmentStyle` saves it. */
  datatype Style = Style(
    text: string, foreground: string, background: string,
    foregroundTemplates: seq<string>, backgroundTemplates: seq<string>, enabled: bool)

  /** The marker settings of a segment, or of the configuration; empty ones are not set. */
  datatype Markers = Markers(pendingIcon: string, pendingBackground: string, timeoutIcon: string, timeoutForeground: string)

  const DEFAULT_MARKERS := Markers("\U{F254} ", "darkGray", "\U{EA87} ", "red")

  datatype Colors = Colors(foreground: string, background: string)

  /** What evaluating a segment's template would give: its text, whether that shows, and the colors
      its color templates resolve to. */
  datatype Outcome = Outcome(text: string, shows: bool, foreground: string, background: string)

  /** What the engine knows of the segment at one position of the block. */
  datatype Context = Context(pending: bool, timedOut: bool, cached: string, outcome: Outcome)

  /** One segment drawn: its state, before and after the color cycle is applied. */
  datatype Drawing = Drawing(look: Style, painted: Style)

  function FirstSet(a: string, b: string, c: string): string {
    if a != "" then a else if b != "" then b else c
  }

  function PendingText(own: Markers, cfg: Markers, cached: string): string {
    FirstSet(own.pendingIcon, cfg.pendingIcon, DEFAULT_MARKERS.pendingIcon) + (if cached == "" then "..." else cached)
  }

  function TimeoutText(own: Markers, cfg: Markers, cached: string): string {
    FirstSet(own.timeoutIcon, cfg.timeoutIcon, DEFAULT_MARKERS.timeoutIcon) + cached
  }

  /** writePlaceholderSegment up to the write. */
  function Placeholder(style: Style, own: Markers, cfg: Markers, c: Context): Style {
    Style(
      if c.timedOut then TimeoutText(own, cfg, c.cached) else PendingText(own, cfg, c.cached),
      if c.timedOut
      then FirstSet(own.timeoutForeground, cfg.timeoutForeground, DEFAULT_MARKERS.timeoutForeground)
      else style.foreground,
      FirstSet(own.pendingBackground, cfg.pendingBackground, DEFAULT_MARKERS.pendingBackground),
      [], [], true)
  }

  /** The styles the block's writing saves and restores: of pending segments, and of those already
      rendered in this generation. */
  predicate IsSaved(style: Style, c: Context) {
    c.pending || (style.text != "" && style.enabled)
  }

  /** What is drawn for such a segment, before the color cycle. */
  function LookOf(style: Style, own: Markers, cfg: Markers, c: Context): Style {
    if c.pending then Placeholder(style, own, cfg, c)
    else style.(foregroundTemplates := [], backgroundTemplates := [])
  }

  function Painted(style: Style, cycle: seq<Colors>): Style {
    if cycle == [] then style
    else style.(foreground := cycle[0].foreground, background := cycle[0].background)
  }

  function Turned(cycle: seq<Colors>): seq<Colors> {
    if cycle == [] then cycle else cycle[1..] + [cycle[0]]
  }

  /** A segment with the settings that drawing leaves alone. */
  datatype Item = Item(style: Style, isVim: bool, keepWhenEmpty: bool, markers: Markers)

  datatype Pen = Pen(cycle: seq<Colors>, drawn: seq<Drawing>)

  datatype Settings = Settings(cfg: Markers, repaintOnly: bool, force: bool)

  /** writeSegment: the pen, and the style the segment is left with. */
  function Wrote(pen: Pen, style: Style, keepWhenEmpty: bool): (Pen, Style) {
    if !style.enabled && !keepWhenEmpty then (pen, style)
    else
      var painted := Painted(style, pen.cycle);
      (Pen(Turned(pen.cycle), pen.drawn + [Drawing(style, painted)]), painted)
  }

  function WroteKept(pen: Pen, style: Style, keepWhenEmpty: bool): (Pen, Style) {
    if keepWhenEmpty then Wrote(pen, style, keepWhenEmpty) else (pen, style)
  }

  predicate Renders(style: Style, outcome: Outcome, force: bool) {
    (style.enabled || force) && (force || outcome.shows)
  }

  function Rendered(style: Style, outcome: Outcome, force: bool): Style {
    if Renders(style, outcome, force) then style.(enabled := true, text := outcome.text) else style.(enabled := false)
  }

  function Baked(style: Style, outcome: Outcome): Style {
    style.(
      foreground := if style.foregroundTemplates != [] then outcome.foreground else style.foreground,
      background := if style.backgroundTemplates != [] then outcome.background else style.background)
  }

  /** One turn of the block's loop, with the restore that follows it at the end. */
  function Drew(pen: Pen, item: Item, c: Context, settings: Settings): (Pen, Style) {
    if IsSaved(item.style, c) then
      (Wrote(pen, LookOf(item.style, item.markers, settings.cfg, c), item.keepWhenEmpty).0, item.style)
    else if settings.repaintOnly && !item.isVim then WroteKept(pen, item.style, item.keepWhenEmpty)
    else
      var style := Rendered(item.style, c.outcome, settings.force);
      if Renders(item.style, c.outcome, settings.force)
      then Wrote(pen, Baked(style, c.outcome), item.keepWhenEmpty)
      else WroteKept(pen, style, item.keepWhenEmpty)
  }

  /** The first k turns: the pen, and the styles the segments end up with. */
  function Pass(pen: Pen, items: seq<Item>, cs: seq<Context>, settings: Settings, k: nat): (Pen, seq<Style>)
    requires k <= |items| == |cs|
  {
    if k == 0 then (pen, [])
    else
      var before := Pass(pen, items, cs, settings, k - 1);
      var turn := Drew(before.0, items[k - 1], cs[k - 1], settings);
      (turn.0, before.1 + [turn.1])
  }

  /** A placeholder shows its own kind's marker, the segment's own before the configuration's before
      the built-in one, and the last value it has: pending segments stand in dots when they have none.
      Only a timed-out one changes its foreground; both are backed by the pending background. */
  lemma PlaceholderShows(style: Style, own: Markers, cfg: Markers, c: Context)
    ensures var p := Placeholder(style, own, cfg, c);
            && p.enabled && p.foregroundTemplates == [] && p.backgroundTemplates == []
            && (own.pendingBackground != "" ==> p.background == own.pendingBackground)
            && (own.pendingBackground == "" && cfg.pendingBackground != "" ==> p.background == cfg.pendingBackground)
            && (own.pendingBackground == "" == cfg.pendingBackground ==> p.background == "darkGray")
    ensures var p := Placeholder(style, own, cfg, c);
            !c.timedOut ==>
              var value := if c.cached == "" then "..." else c.cached;
              && p.foreground == style.foreground
              && (own.pendingIcon != "" ==> p.text == own.pendingIcon + value)
              && (own.pendingIcon == "" && cfg.pendingIcon != "" ==> p.text == cfg.pendingIcon + value)
              && (own.pendingIcon == "" == cfg.pendingIcon ==> p.text == "\U{F254} " + value)
    ensures var p := Placeholder(style, own, cfg, c);
            c.timedOut ==>
              && (own.timeoutIcon != "" ==> p.text == own.timeoutIcon + c.cached)
              && (own.timeoutIcon == "" && cfg.timeoutIcon != "" ==> p.text == cfg.timeoutIcon + c.cached)
              && (own.timeoutIcon == "" == cfg.timeoutIcon ==> p.text == "\U{EA87} " + c.cached)
              && (own.timeoutForeground != "" ==> p.foreground == own.timeoutForeground)
              && (own.timeoutForeground == "" && cfg.timeoutForeground != "" ==> p.foreground == cfg.timeoutForeground)
              && (own.timeoutForeground == "" == cfg.timeoutForeground ==> p.foreground == "red")
  {
  }

  /** What is written takes the colors at the head of the cycle, and keeps everything else; the head
      goes to the end. Without a cycle the segment's own colors are drawn. */
  lemma WritingTakesTheNextColors(pen: Pen, style: Style, keepWhenEmpty: bool)
    ensures var n := Wrote(pen, style, keepWhenEmpty);
            if style.enabled || keepWhenEmpty then
              && n.0.drawn == pen.drawn + [Drawing(style, n.1)]
              && (pen.cycle == [] ==> n.1 == style && n.0.cycle == [])
              && (pen.cycle != [] ==>
                    && n.1.foreground == pen.cycle[0].foreground && n.1.background == pen.cycle[0].background
                    && n.1 == style.(foreground := n.1.foreground, background := n.1.background)
                    && |n.0.cycle| == |pen.cycle| && n.0.cycle[|pen.cycle| - 1] == pen.cycle[0]
                    && forall i :: 0 <= i < |pen.cycle| - 1 ==> n.0.cycle[i] == pen.cycle[i + 1])
            else n == (pen, style)
  {
  }

  /** The other segments: one that has yet to render does so, outside a repaint or when it is vim,
      and is drawn with its text and its resolved colors; one that comes out empty, or is not asked,
      is drawn only if it is to be kept. */
  lemma OthersAreRenderedOrKept(pen: Pen, item: Item, c: Context, settings: Settings)
    requires !c.pending && (item.style.text == "" || !item.style.enabled)
    ensures var n := Drew(pen, item, c, settings);
            var asked := !settings.repaintOnly || item.isVim;
            var shows := settings.force || (item.style.enabled && c.outcome.shows);
            if asked && shows then
              && n.1.enabled && n.1.text == c.outcome.text
              && n.1.foregroundTemplates == item.style.foregroundTemplates && n.1.backgroundTemplates == item.style.backgroundTemplates
              && |n.0.drawn| == |pen.drawn| + 1
              && var look := n.0.drawn[|pen.drawn|].look;
                 && look.text == c.outcome.text
                 && look.foreground == (if item.style.foregroundTemplates != [] then c.outcome.foreground else item.style.foreground)
                 && look.background == (if item.style.backgroundTemplates != [] then c.outcome.background else item.style.background)
            else
              && n.1.text == item.style.text
              && (asked ==> !n.1.enabled) && (!asked ==> n.1.enabled == item.style.enabled)
              && |n.0.drawn| == |pen.drawn| + (if item.keepWhenEmpty then 1 else 0)
  {
  }

  /** A pending segment is drawn as its placeholder, whatever it has rendered before; a rendered one
      is drawn again from its text, without evaluating its color templates; and both end up as they
      were. */
  lemma PendingOrRenderedIsDrawnAndKept(pen: Pen, item: Item, c: Context, settings: Settings)
    requires c.pending || (item.style.text != "" && item.style.enabled)
    ensures var n := Drew(pen, item, c, settings);
            && n.1 == item.style
            && |n.0.drawn| == |pen.drawn| + 1 && n.0.drawn[..|pen.drawn|] == pen.drawn
            && var look := n.0.drawn[|pen.drawn|].look;
               && look.enabled && look.foregroundTemplates == [] && look.backgroundTemplates == []
               && (c.pending ==> look == Placeholder(item.style, item.markers, settings.cfg, c))
               && (!c.pending ==>
                     && look.text == item.style.text
                     && look.foreground == item.style.foreground && look.background == item.style.background)
  {
  }

  class Segment {
    const isVim: bool
    const keepWhenEmpty: bool
    const markers: Markers
    var text: string
    var foreground: string
    var background: string
    var foregroundTemplates: seq<string>
    var backgroundTemplates: seq<string>
    var enabled: bool

    function StyleOf(): Style
      reads this
    {
      Style(text, foreground, background, foregroundTemplates, backgroundTemplates, enabled)
    }

    function ItemOf(): Item
      reads this
    {
      Item(StyleOf(), isVim, keepWhenEmpty, markers)
    }

    constructor (style: Style, isVim: bool, keepWhenEmpty: bool, markers: Markers)
      ensures StyleOf() == style && this.isVim == isVim && this.keepWhenEmpty == keepWhenEmpty && this.markers == markers
    {
      this.isVim, this.keepWhenEmpty, this.markers := isVim, keepWhenEmpty, markers;
      text, foreground, background := style.text, style.foreground, style.background;
      foregroundTemplates, backgroundTemplates := style.foregroundTemplates, style.backgroundTemplates;
      enabled := style.enabled;
    }

    method Restore(style: Style)
      modifies this
      ensures StyleOf() == style
    {
      text, foreground, background := style.text, style.foreground, style.background;
      foregroundTemplates, backgroundTemplates := style.foregroundTemplates, style.backgroundTemplates;
      enabled := style.enabled;
    }

    method Render(outcome: Outcome, force: bool) returns (rendered: bool)
      modifies this`enabled, this`text
      ensures rendered == Renders(old(StyleOf()), outcome, force)
      ensures StyleOf() == Rendered(old(StyleOf()), outcome, force)
    {
      if !enabled && !force {
        return false;
      }
      enabled := force || outcome.shows;
      if !enabled {
        return false;
      }
      text := outcome.text;
      return true;
    }

    method BakeResolvedColors(outcome: Outcome)
      modifies this`foreground, this`background
      ensures StyleOf() == Baked(old(StyleOf()), outcome)
    {
      foreground := if |foregroundTemplates| != 0 then outcome.foreground else foreground;
      background := if |backgroundTemplates| != 0 then outcome.background else background;
    }
  }

  datatype SegmentStyle = SegmentStyle(segment: Segment, style: Style)

  /** The part of the engine that draws; `drawn` is what it has drawn. */
  class Painter {
    const cfg: Markers
    var cycle: seq<Colors>
    var repaintOnly: bool
    var forceRender: bool
    var drawn: seq<Drawing>

    function PenOf(): Pen
      reads this
    {
      Pen(cycle, drawn)
    }

    function SettingsOf(): Settings
      reads this
    {
      Settings(cfg, repaintOnly, forceRender)
    }

    constructor (cfg: Markers, cycle: seq<Colors>, repaintOnly: bool, forceRender: bool)
      ensures PenOf() == Pen(cycle, []) && SettingsOf() == Settings(cfg, repaintOnly, forceRender)
    {
      this.cfg, this.cycle, this.repaintOnly, this.forceRender := cfg, cycle, repaintOnly, forceRender;
      drawn := [];
    }

    method WriteSegment(segment: Segment)
      modifies this`cycle, this`drawn, segment`foreground, segment`background
      ensures (PenOf(), segment.StyleOf()) == Wrote(old(PenOf()), old(segment.StyleOf()), segment.keepWhenEmpty)
    {
      if !segment.enabled && !segment.keepWhenEmpty {
        return;
      }
      var look := segment.StyleOf();
      if |cycle| > 0 {
        var colors := cycle[0];
        cycle := cycle[1..] + [colors];
        segment.foreground, segment.background := colors.foreground, colors.background;
      }
      drawn := drawn + [Drawing(look, segment.StyleOf())];
    }

    method WriteKeptSegment(segment: Segment)
      modifies this`cycle, this`drawn, segment`foreground, segment`background
      ensures (PenOf(), segment.StyleOf()) == WroteKept(old(PenOf()), old(segment.StyleOf()), segment.keepWhenEmpty)
    {
      if !segment.keepWhenEmpty {
        return;
      }
      WriteSegment(segment);
    }

    method WritePlaceholderSegment(segment: Segment, c: Context)
      modifies this`cycle, this`drawn, segment
      ensures PenOf() ==
              Wrote(old(PenOf()), Placeholder(old(segment.StyleOf()), segment.markers, cfg, c), segment.keepWhenEmpty).0
    {
      var text := PendingText(segment.markers, cfg, c.cached);
      var background := FirstSet(segment.markers.pendingBackground, cfg.pendingBackground, DEFAULT_MARKERS.pendingBackground);
      if c.timedOut {
        text := TimeoutText(segment.markers, cfg, c.cached);
        segment.foreground := FirstSet(segment.markers.timeoutForeground, cfg.timeoutForeground, DEFAULT_MARKERS.timeoutForeground);
      }
      segment.text := text;
      segment.background := background;
      segment.foregroundTemplates, segment.backgroundTemplates := [], [];
      segment.enabled := true;
      WriteSegment(segment);
    }

    /** One turn of the loop in writeBlockSegmentsStreaming; `saves` when the segment's style is to
        be restored once the block is written. */
    method WriteOne(segment: Segment, c: Context) returns (saves: bool)
      modifies this`cycle, this`drawn, segment
      ensures saves == IsSaved(old(segment.StyleOf()), c)
      ensures saves <==> c.pending || (old(segment.text) != "" && old(segment.enabled))
      ensures PenOf() == Drew(old(PenOf()), old(segment.ItemOf()), c, old(SettingsOf())).0
      ensures !saves ==> segment.StyleOf() == Drew(old(PenOf()), old(segment.ItemOf()), c, old(SettingsOf())).1
    {
      if c.pending {
        WritePlaceholderSegment(segment, c);
        return true;
      }
      if segment.text != "" && segment.enabled {
        segment.foregroundTemplates, segment.backgroundTemplates := [], [];
        WriteSegment(segment);
        return true;
      }
      saves := false;
      if repaintOnly && !segment.isVim {
        WriteKeptSegment(segment);
        return;
      }
      var rendered := segment.Render(c.outcome, forceRender);
      if !rendered {
        WriteKeptSegment(segment);
        return;
      }
      segment.BakeResolvedColors(c.outcome);
      WriteSegment(segment);
    }

    /** After k turns: the pen, the final styles of the segments that are not restored, and the
        segments still to come. */
    ghost predicate Progress(segments: seq<Segment>, items: seq<Item>, cs: seq<Context>, done: (Pen, seq<Style>), k: nat)
      requires |segments| == |items| == |cs|
      reads this, segments
    {
      && k == |done.1| <= |segments|
      && PenOf() == done.0
      && (forall i :: k <= i < |segments| ==> segments[i].ItemOf() == items[i])
      && (forall i :: 0 <= i < k && !IsSaved(items[i].style, cs[i]) ==> segments[i].StyleOf() == done.1[i])
    }

    method WriteTurn(segments: seq<Segment>, cs: seq<Context>, k: nat, ghost items: seq<Item>, ghost done: (Pen, seq<Style>))
      returns (saves: bool)
      requires |segments| == |items| == |cs| && Distinct(segments) && k < |segments|
      requires Progress(segments, items, cs, done, k)
      modifies this`cycle, this`drawn, segments[k]
      ensures saves == IsSaved(items[k].style, cs[k])
      ensures var turn := Drew(done.0, items[k], cs[k], SettingsOf());
              Progress(segments, items, cs, (turn.0, done.1 + [turn.1]), k + 1)
    {
      saves := WriteOne(segments[k], cs[k]);
    }

    /** The loop of writeBlockSegmentsStreaming over the block's segments. */
    method WriteAll(segments: seq<Segment>, cs: seq<Context>, ghost items: seq<Item>) returns (saved: seq<SegmentStyle>)
      requires |segments| == |cs| && Distinct(segments) && Show(segments, items)
      modifies this`cycle, this`drawn, segments
      ensures var all := Pass(old(PenOf()), items, cs, old(SettingsOf()), |segments|);
              && PenOf() == all.0
              && |all.1| == |segments|
              && forall i :: 0 <= i < |segments| && !IsSaved(items[i].style, cs[i]) ==> segments[i].StyleOf() == all.1[i]
      ensures saved == SavedStyles(segments, items, cs, |segments|)
    {
      hide Drew;
      ghost var pen, settings := PenOf(), SettingsOf();
      ghost var done: (Pen, seq<Style>) := (pen, []);
      saved := [];
      var k := 0;
      while k < |segments|
        invariant 0 <= k <= |segments| && SettingsOf() == settings
        invariant done == Pass(pen, items, cs, settings, k)
        invariant Progress(segments, items, cs, done, k)
        invariant saved == SavedStyles(segments, items, cs, k)
      {
        PassStep(pen, items, cs, settings, k);
        SavedStep(segments, items, cs, k);
        var style := segments[k].StyleOf();
        var saves := WriteTurn(segments, cs, k, items, done);
        if saves {
          saved := saved + [SegmentStyle(segments[k], style)];
        }
        done := Pass(pen, items, cs, settings, k + 1);
        k := k + 1;
      }
    }

    /** Writes a block; its segments are distinct objects, as layoutBlock makes them. Every pending
        or already rendered one has the style it had before. */
    method WriteBlockSegmentsStreaming(segments: seq<Segment>, cs: seq<Context>, ghost items: seq<Item>)
      requires |segments| == |cs| && Distinct(segments) && Show(segments, items)
      modifies this`cycle, this`drawn, segments
      ensures var all := Pass(old(PenOf()), items, cs, old(SettingsOf()), |segments|);
              && PenOf() == all.0
              && |all.1| == |segments|
              && forall i :: 0 <= i < |segments| ==> segments[i].StyleOf() == all.1[i]
      ensures forall i :: 0 <= i < |segments| && (cs[i].pending || (old(segments[i].text) != "" && old(segments[i].enabled))) ==>
                segments[i].StyleOf() == old(segments[i].StyleOf())
    {
      PassKeepsSaved(PenOf(), items, cs, SettingsOf(), |segments|);
      SavedAll(segments, items, cs, |segments|);
      SavedOnce(segments, items, cs, |segments|);
      var saved := WriteAll(segments, cs, items);
      RestoreAll(saved);
    }

    /** The loop that undoes the rewrites. */
    method RestoreAll(saved: seq<SegmentStyle>)
      requires forall i, j :: 0 <= i < j < |saved| ==> saved[i].segment != saved[j].segment
      modifies set i | 0 <= i < |saved| :: saved[i].segment
      ensures forall i :: 0 <= i < |saved| ==> saved[i].segment.StyleOf() == saved[i].style
    {
      var i := 0;
      while i < |saved|
        invariant 0 <= i <= |saved|
        invariant forall j :: 0 <= j < i ==> saved[j].segment.StyleOf() == saved[j].style
      {
        saved[i].segment.Restore(saved[i].style);
        i := i + 1;
      }
    }
  }

  /** The items are what the segments hold. */
  predicate Show(segments: seq<Segment>, items: seq<Item>)
    reads segments
  {
    |segments| == |items| && forall i :: 0 <= i < |segments| ==> segments[i].ItemOf() == items[i]
  }

  /** What is saved in the first k turns. */
  function SavedStyles(segments: seq<Segment>, items: seq<Item>, cs: seq<Context>, k: nat): seq<SegmentStyle>
    requires k <= |segments| == |items| == |cs|
  {
    if k == 0 then []
    else
      SavedStyles(segments, items, cs, k - 1)
      + (if IsSaved(items[k - 1].style, cs[k - 1]) then [SegmentStyle(segments[k - 1], items[k - 1].style)] else [])
  }

  predicate Distinct(segments: seq<Segment>) {
    forall i, j :: 0 <= i < j < |segments| ==> segments[i] != segments[j]
  }

  lemma SavedStep(segments: seq<Segment>, items: seq<Item>, cs: seq<Context>, k: nat)
    requires k < |segments| == |items| == |cs|
    ensures SavedStyles(segments, items, cs, k + 1) ==
            SavedStyles(segments, items, cs, k)
            + (if IsSaved(items[k].style, cs[k]) then [SegmentStyle(segments[k], items[k].style)] else [])
  {
  }

  /** Each segment that is to be restored is saved. */
  lemma {:induction false} SavedAll(segments: seq<Segment>, items: seq<Item>, cs: seq<Context>, k: nat)
    requires k <= |segments| == |items| == |cs|
    ensures forall i :: 0 <= i < k && IsSaved(items[i].style, cs[i]) ==>
              SegmentStyle(segments[i], items[i].style) in SavedStyles(segments, items, cs, k)
  {
    if k > 0 {
      SavedAll(segments, items, cs, k - 1);
    }
  }

  /** No other is, and none twice. */
  lemma {:induction false} SavedOnce(segments: seq<Segment>, items: seq<Item>, cs: seq<Context>, k: nat)
    requires k <= |segments| == |items| == |cs| && Distinct(segments)
    ensures var saved := SavedStyles(segments, items, cs, k);
            && (forall i, j :: 0 <= i < |segments| && (i >= k || !IsSaved(items[i].style, cs[i])) && 0 <= j < |saved| ==>
                  saved[j].segment != segments[i])
            && (forall i, j :: 0 <= i < j < |saved| ==> saved[i].segment != saved[j].segment)
            && (forall j :: 0 <= j < |saved| ==> saved[j].segment in segments)
  {
    if k > 0 {
      SavedOnce(segments, items, cs, k - 1);
      SavedStep(segments, items, cs, k - 1);
    }
  }

  lemma PassStep(pen: Pen, items: seq<Item>, cs: seq<Context>, settings: Settings, k: nat)
    requires k < |items| == |cs|
    ensures var before := Pass(pen, items, cs, settings, k);
            var turn := Drew(before.0, items[k], cs[k], settings);
            Pass(pen, items, cs, settings, k + 1) == (turn.0, before.1 + [turn.1])
  {
  }

  // ---------------------------------------------------------------- theorems

  lemma DrewRestores(pen: Pen, item: Item, c: Context, settings: Settings)
    requires IsSaved(item.style, c)
    ensures Drew(pen, item, c, settings).1 == item.style
  {
  }

  /** Nothing leaks: a pending or already rendered segment has the style it had before. */
  lemma {:induction false} PassKeepsSaved(pen: Pen, items: seq<Item>, cs: seq<Context>, settings: Settings, k: nat)
    requires k <= |items| == |cs|
    ensures |Pass(pen, items, cs, settings, k).1| == k
    ensures forall i :: 0 <= i < k && IsSaved(items[i].style, cs[i]) ==> Pass(pen, items, cs, settings, k).1[i] == items[i].style
  {
    hide Drew;
    if k > 0 {
      PassKeepsSaved(pen, items, cs, settings, k - 1);
      PassStep(pen, items, cs, settings, k - 1);
      var before := Pass(pen, items, cs, settings, k - 1);
      var styles := Pass(pen, items, cs, settings, k).1;
      assert styles[..k - 1] == before.1;
      forall i | 0 <= i < k && IsSaved(items[i].style, cs[i]) ensures styles[i] == items[i].style {
        if i < k - 1 {
          assert styles[i] == before.1[i];
        } else {
          DrewRestores(before.0, items[i], cs[i], settings);
        }
      }
    }
  }

  lemma DrewAppends(pen: Pen, item: Item, c: Context, settings: Settings)
    ensures pen.drawn <= Drew(pen, item, c, settings).0.drawn
    ensures IsSaved(item.style, c) ==>
              var look := LookOf(item.style, item.markers, settings.cfg, c);
              Drew(pen, item, c, settings).0.drawn == pen.drawn + [Drawing(look, Painted(look, pen.cycle))]
  {
  }

  lemma PassGrows(pen: Pen, items: seq<Item>, cs: seq<Context>, settings: Settings, k: nat)
    requires k < |items| == |cs|
    ensures var before := Pass(pen, items, cs, settings, k).0;
            var after := Pass(pen, items, cs, settings, k + 1).0;
            && before.drawn <= after.drawn
            && (IsSaved(items[k].style, cs[k]) ==>
                  var look := LookOf(items[k].style, items[k].markers, settings.cfg, cs[k]);
                  after.drawn == before.drawn + [Drawing(look, Painted(look, before.cycle))])
  {
    PassStep(pen, items, cs, settings, k);
    DrewAppends(Pass(pen, items, cs, settings, k).0, items[k], cs[k], settings);
  }

  lemma {:induction false} PassExtends(pen: Pen, items: seq<Item>, cs: seq<Context>, settings: Settings, i: nat, k: nat)
    requires i <= k <= |items| == |cs|
    ensures Pass(pen, items, cs, settings, i).0.drawn <= Pass(pen, items, cs, settings, k).0.drawn
    decreases k
  {
    hide Drew;
    if i < k {
      PassExtends(pen, items, cs, settings, i, k - 1);
      PassGrows(pen, items, cs, settings, k - 1);
      PrefixOfPrefix(Pass(pen, items, cs, settings, i).0.drawn, Pass(pen, items, cs, settings, k - 1).0.drawn,
                     Pass(pen, items, cs, settings, k).0.drawn);
    }
  }

  lemma PrefixOfPrefix(a: seq<Drawing>, b: seq<Drawing>, c: seq<Drawing>)
    requires a <= b <= c
    ensures a <= c
  {
  }

  /** Each of them is drawn, in its turn, with the placeholder of its saved style, or with that
      style without its templates. */
  lemma PassDraws(pen: Pen, items: seq<Item>, cs: seq<Context>, settings: Settings, i: nat, k: nat)
    requires i < k <= |items| == |cs| && IsSaved(items[i].style, cs[i])
    ensures var before := Pass(pen, items, cs, settings, i).0;
            var drawn := Pass(pen, items, cs, settings, k).0.drawn;
            var look := LookOf(items[i].style, items[i].markers, settings.cfg, cs[i]);
            |before.drawn| < |drawn| && drawn[|before.drawn|] == Drawing(look, Painted(look, before.cycle))
  {
    hide Drew;
    PassGrows(pen, items, cs, settings, i);
    PassExtends(pen, items, cs, settings, i + 1, k);
  }

  /** The segments as a rendering of the block leaves them. */
  function Redrawn(pen: Pen, items: seq<Item>, cs: seq<Context>, settings: Settings): (r: seq<Item>)
    requires |items| == |cs|
    ensures |r| == |items|
  {
    PassKeepsSaved(pen, items, cs, settings, |items|);
    var styles := Pass(pen, items, cs, settings, |items|).1;
    seq(|items|, i requires 0 <= i < |items| => items[i].(style := styles[i]))
  }

  /** One rendering of the block: the pen it starts with, what is known of each segment, the settings. */
  datatype Round = Round(pen: Pen, cs: seq<Context>, settings: Settings)

  predicate Fits(items: seq<Item>, rounds: seq<Round>) {
    forall j :: 0 <= j < |rounds| ==> |rounds[j].cs| == |items|
  }

  function Rerendered(items: seq<Item>, rounds: seq<Round>, n: nat): (r: seq<Item>)
    requires n <= |rounds| && Fits(items, rounds)
    ensures |r| == |items|
  {
    if n == 0 then items
    else
      var before := Rerendered(items, rounds, n - 1);
      Redrawn(rounds[n - 1].pen, before, rounds[n - 1].cs, rounds[n - 1].settings)
  }

  /** Any number of re-renders draws the same: a segment that is pending, or already rendered, all
      along keeps its item, so each time its look is that of the style it started with. */
  lemma {:induction false} RerendersDrawTheSame(items: seq<Item>, rounds: seq<Round>, n: nat, i: nat)
    requires n <= |rounds| && Fits(items, rounds) && i < |items|
    requires forall j :: 0 <= j < n ==> IsSaved(items[i].style, rounds[j].cs[i])
    ensures Rerendered(items, rounds, n)[i] == items[i]
  {
    if n > 0 {
      RerendersDrawTheSame(items, rounds, n - 1, i);
      var r := rounds[n - 1];
      PassKeepsSaved(r.pen, Rerendered(items, rounds, n - 1), r.cs, r.settings, |items|);
    }
  }

  /** A block whose segments are all pending or rendered is drawn identically from the same pen. */
  lemma BlockRedrawsIdentically(pen: Pen, items: seq<Item>, cs: seq<Context>, settings: Settings)
    requires |items| == |cs|
    requires forall i :: 0 <= i < |items| ==> IsSaved(items[i].style, cs[i])
    ensures Pass(pen, Redrawn(pen, items, cs, settings), cs, settings, |items|) == Pass(pen, items, cs, settings, |items|)
  {
    PassKeepsSaved(pen, items, cs, settings, |items|);
    assert Redrawn(pen, items, cs, settings) == items;
  }
}
