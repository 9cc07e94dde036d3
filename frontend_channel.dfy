/**
 * The waveform view of a channel in the browser
 * (autodj/frontend/js/modules/channel.js): the pointer selects a bar range
 * on the waveform, the range is snapped to a musical length anchored at the
 * bar where the drag started, and the queued transition is drawn as a
 * rectangle. Only the selection state and the geometry of the two
 * rectangles are modelled; the rest of the DOM is not.
 */
module FrontendChannel {
  import opened Wrappers

  /** Pixels per bar on the waveform. */
  const BarWidth: int := 25

  /** Horizontal offset of the waveform inside its scroll area. */
  const Off: int := 1000000

  /** What the server tells about a song (song_info). */
  datatype SongInfo = SongInfo(file: string, artist: string, title: string, bpm: real, offset: real, length: real)

  /** The bar range being dragged: its start, its current end, and whether the drag goes on. */
  datatype Selection = Selection(from: Option<int>, to: Option<int>, active: bool)

  /** An SVG rectangle: whether it is shown, and its x position and width in pixels. */
  datatype Rect = Rect(visible: bool, x: int, width: int)

  /** Math.abs on the integer bar numbers of a drag. */
  function Abs(x: int): nat { if x < 0 then -x else x }

  /** Math.ceil */
  function Ceil(x: real): (c: int)
    ensures c as real - 1.0 < x <= c as real
  {
    -((-x).Floor)
  }

  /** Math.ceil(n / d) for natural `n` and a divisor of 2 or 4, as integer division. */
  lemma CeilQuotient(n: nat, d: int)
    requires d == 2 || d == 4
    ensures Ceil(n as real / d as real) == (n + d - 1) / d
  {
    var q := (n + d - 1) / d;
    var c := Ceil(n as real / d as real);
    assert (q - 1) * d < n <= q * d;
    if d == 2 {
      assert q as real - 1.0 < n as real / 2.0 <= q as real;
    } else {
      assert q as real - 1.0 < n as real / 4.0 <= q as real;
    }
    assert c - 1 < q && q - 1 < c;
  }

  /** The bar under a pointer `offsetX` pixels into the waveform. */
  function BarAt(offsetX: real): (b: int)
    ensures b as real * BarWidth as real <= offsetX < (b + 1) as real * BarWidth as real
  {
    (offsetX / BarWidth as real).Floor
  }

  /**
   * The snapped length of a selection of `n` bars: one bar stays one bar, up
   * to 8 bars round up to an even length, longer ones to a multiple of 4.
   */
  function SnapLength(n: int): (len: int)
    requires n >= 1
    ensures len >= n
    ensures n == 1 ==> len == 1
    ensures 2 <= n <= 8 ==> len % 2 == 0 && len <= n + 1
    ensures n > 8 ==> len % 4 == 0 && len <= n + 3
  {
    if n == 1 then 1
    else if n <= 8 then n + n % 2
    else n + (4 - n % 4) % 4
  }

  /** Snapping a snapped length changes nothing. */
  lemma SnapLengthIdempotent(n: int)
    requires n >= 1
    ensures SnapLength(SnapLength(n)) == SnapLength(n)
  {
  }

  /**
   * The region a drag from bar `from` to bar `to` selects: the snapped
   * length, starting at `from` when dragging right and ending at it when
   * dragging left, and covering `to`.
   */
  function SnapRegion(from: int, to: int): (r: (int, int))
    ensures r.1 - r.0 + 1 == SnapLength(Abs(to - from) + 1)
    ensures from <= to ==> r.0 == from
    ensures from > to ==> r.1 == from
    ensures r.0 <= from <= r.1 && r.0 <= to <= r.1
  {
    var len := SnapLength(Abs(to - from) + 1);
    if from <= to then (from, from + len - 1) else (from - len + 1, from)
  }

  /** A click without a drag selects exactly the bar clicked. */
  lemma ClickSelectsOneBar(b: int)
    ensures SnapRegion(b, b) == (b, b)
  {
  }

  /** The selection rectangle of a region. */
  function SelectionRect(region: (int, int)): (r: Rect)
    ensures r.visible
    ensures r.x == region.0 * BarWidth && r.width == (region.1 - region.0 + 1) * BarWidth
  {
    Rect(true, region.0 * BarWidth, (region.1 - region.0 + 1) * BarWidth)
  }

  /** The rectangle of a queued transition's bars, drawn over the waveform. */
  function QueuedRect(queued: Option<(int, int)>, old_: Rect): (r: Rect)
    ensures queued.None? ==> r == old_.(visible := false)
    ensures queued.Some? ==> r.visible && r.x == queued.value.0 * BarWidth + Off
                             && r.width == (queued.value.1 - queued.value.0 + 1) * BarWidth
  {
    if queued.Some? then Rect(true, queued.value.0 * BarWidth + Off, (queued.value.1 - queued.value.0 + 1) * BarWidth)
    else old_.(visible := false)
  }

  /**
   * A region queued with the waveform's offset taken off its bars (as the
   * page does before sending it) is drawn where it was selected.
   */
  lemma QueuedWhereSelected(region: (int, int), prev: Rect)
    ensures QueuedRect(Some((region.0 - Off / BarWidth, region.1 - Off / BarWidth)), prev) == SelectionRect(region)
  {
  }

  /** The selection is drawn only for a song and a complete bar range. */
  predicate Shown(song: Option<SongInfo>, sel: Selection) {
    song.Some? && sel.from.Some? && sel.to.Some?
  }

  class Channel {
    const id: nat
    var song: Option<SongInfo>
    var selection: Selection
    var region: Option<(int, int)>
    var selectionRect: Rect
    var queuedRect: Rect
    /** The file of the last status; None until the first status arrives. */
    var lastFile: Option<Option<string>>

    constructor (id: nat)
      ensures this.id == id && song.None? && selection == Selection(None, None, false) && region.None?
      ensures lastFile.None? && !selectionRect.visible && !queuedRect.visible
    {
      this.id := id;
      song := None;
      selection := Selection(None, None, false);
      region := None;
      selectionRect := Rect(false, 0, 0);
      queuedRect := Rect(false, 0, 0);
      lastFile := None;
    }

    /**
     * updateSelection: snaps the selection into `region` and shows its
     * rectangle; without a song or a complete range it hides the rectangle
     * and leaves `region` as it was.
     */
    method UpdateSelection()
      modifies this
      ensures song == old(song) && selection == old(selection)
      ensures queuedRect == old(queuedRect) && lastFile == old(lastFile)
      ensures Shown(song, selection) ==>
                region == Some(SnapRegion(selection.from.value, selection.to.value))
                && selectionRect == SelectionRect(region.value)
      ensures !Shown(song, selection) ==> region == old(region) && selectionRect == old(selectionRect).(visible := false)
    {
      if song.None? || selection.from.None? || selection.to.None? {
        selectionRect := selectionRect.(visible := false);
        return;
      }
      var from := Min(selection.from.value, selection.to.value);
      var to := Max(selection.from.value, selection.to.value);
      var len := RoundLength(to - from + 1);
      if selection.from.value <= selection.to.value {
        to := from + len - 1;
      } else {
        from := to - len + 1;
      }
      assert (from, to) == SnapRegion(selection.from.value, selection.to.value);
      region := Some((from, to));
      selectionRect := Rect(true, from * BarWidth, len * BarWidth);
    }

    /** The length rounding inside updateSelection, with Math.ceil on the quotient. */
    static method RoundLength(raw: int) returns (len: int)
      requires raw >= 1
      ensures len == SnapLength(raw)
    {
      len := raw;
      if len >= 2 && len <= 8 {
        CeilQuotient(len, 2);
        len := Ceil(len as real / 2.0) * 2;
      } else if len > 8 {
        CeilQuotient(len, 4);
        len := Ceil(len as real / 4.0) * 4;
      }
    }

    /** onpointerdown: starts a drag at the bar under the pointer. */
    method PointerDown(offsetX: real)
      modifies this
      ensures selection == Selection(Some(BarAt(offsetX)), Some(BarAt(offsetX)), true)
      ensures song == old(song) && queuedRect == old(queuedRect) && lastFile == old(lastFile)
      ensures song.Some? ==> region == Some((BarAt(offsetX), BarAt(offsetX)))
                             && selectionRect == SelectionRect(region.value)
      ensures song.None? ==> region == old(region) && selectionRect == old(selectionRect).(visible := false)
    {
      var b := BarAt(offsetX);
      selection := Selection(Some(b), Some(b), true);
      UpdateSelection();
      ClickSelectsOneBar(b);
    }

    /** onpointermove: during a drag, moves its end to the bar under the pointer. */
    method PointerMove(offsetX: real)
      modifies this
      ensures old(selection.active) ==> selection == old(selection).(to := Some(BarAt(offsetX)))
      ensures old(selection.active) && Shown(song, selection) ==>
                region == Some(SnapRegion(selection.from.value, BarAt(offsetX)))
                && selectionRect == SelectionRect(region.value)
      ensures old(selection.active) && !Shown(song, selection) ==>
                region == old(region) && selectionRect == old(selectionRect).(visible := false)
      ensures !old(selection.active) ==> unchanged(this)
      ensures song == old(song) && queuedRect == old(queuedRect) && lastFile == old(lastFile)
    {
      if selection.active {
        selection := selection.(to := Some(BarAt(offsetX)));
        UpdateSelection();
      }
    }

    /** onpointerup / onpointerleave: ends the drag, keeping the range. */
    method PointerUp()
      modifies this
      ensures selection == old(selection).(active := false)
      ensures song == old(song) && queuedRect == old(queuedRect) && lastFile == old(lastFile)
      ensures Shown(song, selection) ==>
                region == Some(SnapRegion(selection.from.value, selection.to.value))
                && selectionRect == SelectionRect(region.value)
      ensures !Shown(song, selection) ==> region == old(region) && selectionRect == old(selectionRect).(visible := false)
    {
      selection := selection.(active := false);
      UpdateSelection();
    }

    /** clearSelection: forgets the range and hides it, but keeps `region`. */
    method ClearSelection()
      modifies this
      ensures selection == Selection(None, None, false)
      ensures region == old(region) && selectionRect == old(selectionRect).(visible := false)
      ensures song == old(song) && queuedRect == old(queuedRect) && lastFile == old(lastFile)
    {
      selection := Selection(None, None, false);
      UpdateSelection();
    }

    /** updateSong: a new song starts with no selection and no region. */
    method UpdateSong()
      modifies this
      ensures selection == Selection(None, None, false) && region.None?
      ensures selectionRect == old(selectionRect).(visible := false)
      ensures song == old(song) && queuedRect == old(queuedRect) && lastFile == old(lastFile)
    {
      selection := Selection(None, None, false);
      region := None;
      selectionRect := selectionRect.(visible := false);
    }

    /**
     * setup: shows the song of `file`, whose song_info answer is `reply`, or
     * no song when the channel holds no file.
     */
    method Setup(file: Option<string>, reply: SongInfo)
      modifies this
      ensures song == if file.Some? then Some(reply) else None
      ensures selection == Selection(None, None, false) && region.None?
      ensures selectionRect == old(selectionRect).(visible := false)
      ensures queuedRect == old(queuedRect) && lastFile == old(lastFile)
    {
      if file.Some? {
        song := Some(reply);
      } else {
        song := None;
      }
      UpdateSong();
    }

    /**
     * update: on a new file in this channel's status the song is set up
     * again; the queued rectangle follows the channel's transition bars.
     */
    method Update(file: Option<string>, transitionBars: Option<(int, int)>, reply: SongInfo)
      modifies this
      ensures lastFile == Some(file)
      ensures old(lastFile) != Some(file) ==>
                && song == (if file.Some? then Some(reply) else None)
                && selection == Selection(None, None, false) && region.None?
                && selectionRect == old(selectionRect).(visible := false)
      ensures old(lastFile) == Some(file) ==>
                song == old(song) && selection == old(selection) && region == old(region)
                && selectionRect == old(selectionRect)
      ensures queuedRect == QueuedRect(transitionBars, old(queuedRect))
    {
      if lastFile != Some(file) {
        lastFile := Some(file);
        Setup(file, reply);
      }
      queuedRect := QueuedRect(transitionBars, queuedRect);
    }
  }
}
