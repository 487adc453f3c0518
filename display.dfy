/** The card canvas as a display list: the Pillow calls that app.py makes on
    the card (`paste`, `text`, `rounded_rectangle`) recorded in order as
    commands, with the pixel work itself left to the imaging library. */
module Display {

  /** A colour as the colour picker hands it over; passed through untouched. */
  type Color = string

  /** A decoded upload, standing for its resized pixels. */
  type ImageRef = nat

  /** Which of the two typefaces a text is set in. */
  datatype Font = TitleFont | TextFont

  /** How a pasted image is blended: through its own alpha channel, or
      through the elliptical mask of the student photo. */
  datatype Mask = OwnAlpha | Ellipse

  datatype Command =
    | PasteImage(image: ImageRef, x: int, y: int, w: int, h: int, mask: Mask)
    | PasteFill(x: int, y: int, w: int, h: int, red: int, green: int, blue: int, alpha: int)
    | DrawText(x: int, y: int, text: string, fill: Color, font: Font)
    | RoundedRectangle(x0: int, y0: int, x1: int, y1: int, outline: Color, strokeWidth: int, radius: int)

  /** `Image.new("RGB", (width, height), background)` together with the
      `ImageDraw` that draws on it: a fixed size, a background colour and
      the commands issued so far. */
  class Canvas {
    const width: int
    const height: int
    const background: Color
    var commands: seq<Command>

    constructor (width: int, height: int, background: Color)
      ensures this.width == width && this.height == height && this.background == background
      ensures commands == []
    {
      this.width := width;
      this.height := height;
      this.background := background;
      commands := [];
    }

    /** `background.paste(img, (x, y), mask)` of an image resized to w×h. */
    method Paste(image: ImageRef, x: int, y: int, w: int, h: int, mask: Mask)
      modifies this
      ensures commands == old(commands) + [PasteImage(image, x, y, w, h, mask)]
    {
      commands := commands + [PasteImage(image, x, y, w, h, mask)];
    }

    /** `background.paste(overlay, (x, y), overlay)` of a w×h block of one
      RGBA colour. */
    method PasteSolid(x: int, y: int, w: int, h: int, red: int, green: int, blue: int, alpha: int)
      modifies this
      ensures commands == old(commands) + [PasteFill(x, y, w, h, red, green, blue, alpha)]
    {
      commands := commands + [PasteFill(x, y, w, h, red, green, blue, alpha)];
    }

    /** `draw.text((x, y), text, fill=fill, font=font)`. */
    method Text(x: int, y: int, text: string, fill: Color, font: Font)
      modifies this
      ensures commands == old(commands) + [DrawText(x, y, text, fill, font)]
    {
      commands := commands + [DrawText(x, y, text, fill, font)];
    }

    /** `draw.rounded_rectangle((x0, y0, x1, y1), outline=outline, width=strokeWidth, radius=radius)`. */
    method RoundedRect(x0: int, y0: int, x1: int, y1: int, outline: Color, strokeWidth: int, radius: int)
      modifies this
      ensures commands == old(commands) + [RoundedRectangle(x0, y0, x1, y1, outline, strokeWidth, radius)]
    {
      commands := commands + [RoundedRectangle(x0, y0, x1, y1, outline, strokeWidth, radius)];
    }
  }

  /** The commands of `cmds` that `drop` does not select, in order. */
  function Remove(cmds: seq<Command>, drop: Command -> bool): (r: seq<Command>)
    ensures |r| <= |cmds|
    ensures NoneDropped(r, drop)
  {
    if cmds == [] then []
    else
      var rest := Remove(cmds[1..], drop);
      if drop(cmds[0]) then rest
      else
        assert forall i :: 1 <= i < |[cmds[0]] + rest| ==> ([cmds[0]] + rest)[i] == rest[i - 1];
        [cmds[0]] + rest
  }

  /** Every command `drop` does not select is kept, and nothing else is. */
  lemma {:induction false} RemoveMembers(cmds: seq<Command>, drop: Command -> bool, c: Command)
    ensures c in Remove(cmds, drop) <==> c in cmds && !drop(c)
  {
    if cmds != [] {
      RemoveMembers(cmds[1..], drop, c);
      assert cmds == [cmds[0]] + cmds[1..];
    }
  }

  lemma {:induction false} RemoveAppend(a: seq<Command>, b: seq<Command>, drop: Command -> bool)
    ensures Remove(a + b, drop) == Remove(a, drop) + Remove(b, drop)
  {
    if a == [] {
      assert a + b == b;
    } else {
      assert (a + b)[0] == a[0] && (a + b)[1..] == a[1..] + b;
      RemoveAppend(a[1..], b, drop);
    }
  }

  /** Removing what is not there changes nothing. */
  lemma {:induction false} RemoveNothing(cmds: seq<Command>, drop: Command -> bool)
    requires forall i :: 0 <= i < |cmds| ==> !drop(cmds[i])
    ensures Remove(cmds, drop) == cmds
  {
    if cmds != [] {
      RemoveNothing(cmds[1..], drop);
    }
  }

  /** Removing everything leaves nothing. */
  lemma {:induction false} RemoveAll(cmds: seq<Command>, drop: Command -> bool)
    requires forall i :: 0 <= i < |cmds| ==> drop(cmds[i])
    ensures Remove(cmds, drop) == []
  {
    if cmds != [] {
      RemoveAll(cmds[1..], drop);
    }
  }

  /** `drop` selects none of `cmds`. */
  predicate NoneDropped(cmds: seq<Command>, drop: Command -> bool) {
    forall i :: 0 <= i < |cmds| ==> !drop(cmds[i])
  }

  lemma NoneDroppedAppend(a: seq<Command>, b: seq<Command>, drop: Command -> bool)
    requires NoneDropped(a, drop) && NoneDropped(b, drop)
    ensures NoneDropped(a + b, drop)
  {
    forall i | 0 <= i < |a + b| ensures !drop((a + b)[i]) {
      if i < |a| { assert (a + b)[i] == a[i]; } else { assert (a + b)[i] == b[i - |a|]; }
    }
  }

  /** Removing a run that `drop` selects entirely, from between two runs it
      selects nothing of, leaves just those two runs. */
  lemma RemoveBetween(a: seq<Command>, p: seq<Command>, b: seq<Command>, drop: Command -> bool)
    requires NoneDropped(a, drop) && NoneDropped(b, drop)
    requires forall i :: 0 <= i < |p| ==> drop(p[i])
    ensures Remove(a + p + b, drop) == a + b
  {
    assert Remove(a + p, drop) == a by {
      RemoveAppend(a, p, drop);
      RemoveAll(p, drop);
      RemoveNothing(a, drop);
    }
    assert Remove(b, drop) == b by { RemoveNothing(b, drop); }
    RemoveAppend(a + p, b, drop);
  }

  /** Removing a run that `drop` selects entirely, from in front of a run
      it selects nothing of, leaves just that run. */
  lemma RemoveFront(p: seq<Command>, b: seq<Command>, drop: Command -> bool)
    requires forall i :: 0 <= i < |p| ==> drop(p[i])
    requires NoneDropped(b, drop)
    ensures Remove(p + b, drop) == b
  {
    RemoveAppend(p, b, drop);
    RemoveAll(p, drop);
    RemoveNothing(b, drop);
    assert [] + b == b;
  }

  // Sequence facts used only to regroup the concatenated command lists in
  // the proofs about the card; Dafny proves each of them unaided.

  /** Cutting `a + b + c` after `a` and after `b` gives back the three. */
  lemma SplitThree(a: seq<Command>, b: seq<Command>, c: seq<Command>)
    ensures (a + b + c)[..|a|] == a
    ensures (a + b + c)[|a|..|a| + |b|] == b
    ensures (a + b + c)[|a| + |b|..] == c
    ensures forall i :: 0 <= i < |b| ==> (a + b + c)[|a| + i] == b[i]
  {
  }

  /** Appending three runs one after another appends the three together. */
  lemma AppendThree(start: seq<Command>, a: seq<Command>, b: seq<Command>, c: seq<Command>)
    ensures start + a + b + c == start + (a + b + c)
  {
  }

  /** Appending four runs one after another appends the four together. */
  lemma AppendFour(start: seq<Command>, a: seq<Command>, b: seq<Command>, c: seq<Command>, d: seq<Command>)
    ensures start + a + b + c + d == start + (a + b + c + d)
  {
  }

  lemma AppendAssoc(a: seq<Command>, b: seq<Command>, c: seq<Command>)
    ensures a + (b + c) == a + b + c
  {
  }

  /** The same six runs, grouped with the run of interest in the middle. */
  lemma Regroup(a: seq<Command>, b: seq<Command>, c: seq<Command>, d: seq<Command>, e: seq<Command>, f: seq<Command>)
    ensures a + b + (c + d + e + f) == (a + b + c) + d + (e + f)
    ensures a + b + (c + d + e + f) == (a + b + c + d) + e + f
    ensures a + b + (c + d + e + f) == (a + b + c + d + e) + f
  {
  }
}
