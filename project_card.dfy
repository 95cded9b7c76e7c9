/**
 * The tilt input of a project card: `handleMouseMove` turns the pointer
 * position into a pair of offsets centred on the card, and
 * `handleMouseLeave` resets them. The offsets are the motion values `x`
 * and `y`, updated in place.
 */
module ProjectCard {
  import opened Wrappers

  /** The card's bounding rectangle as the browser measures it. */
  datatype Rect = Rect(left: real, top: real, width: real, height: real)

  /** One axis of the pointer's position relative to the card: -0.5 at the near edge, 0 at the centre. */
  function Normalise(client: real, origin: real, extent: real): (v: real)
    requires extent > 0.0
    ensures origin <= client <= origin + extent <==> -0.5 <= v <= 0.5
    ensures client == origin <==> v == -0.5
    ensures client == origin + extent / 2.0 <==> v == 0.0
    ensures client == origin + extent <==> v == 0.5
  {
    UnitFraction(client - origin, extent);
    (client - origin) / extent - 0.5
  }

  /** A distance lies within [0, extent] exactly when its fraction of extent lies in [0, 1]. */
  lemma UnitFraction(d: real, extent: real)
    requires extent > 0.0
    ensures 0.0 <= d <= extent <==> 0.0 <= d / extent <= 1.0
  {
    var q := d / extent;
    assert q * extent == d;
    if 0.0 <= d <= extent {
      assert q >= 0.0;
      assert q <= 1.0;
    }
    if 0.0 <= q <= 1.0 {
      assert q * extent >= 0.0;
      assert (1.0 - q) * extent >= 0.0;
    }
  }

  /** The pointer position on an axis that normalises to v. */
  function Denormalise(v: real, origin: real, extent: real): real
  {
    origin + (v + 0.5) * extent
  }

  /** Normalising is invertible: the offset determines the pointer position. */
  lemma NormaliseRoundTrip(client: real, origin: real, extent: real)
    requires extent > 0.0
    ensures Denormalise(Normalise(client, origin, extent), origin, extent) == client
  {
    var v := Normalise(client, origin, extent);
    assert (v + 0.5) * extent == client - origin;
  }

  /** Normalising keeps the order of pointer positions. */
  lemma NormaliseMonotone(c1: real, c2: real, origin: real, extent: real)
    requires extent > 0.0 && c1 <= c2
    ensures Normalise(c1, origin, extent) <= Normalise(c2, origin, extent)
  {
    assert (c2 - origin) / extent - (c1 - origin) / extent == (c2 - c1) / extent;
  }

  /** The card's tilt offsets. */
  class TiltCard {
    var x: real
    var y: real

    /** Both motion values start at 0. */
    constructor ()
      ensures x == 0.0 && y == 0.0
    {
      x := 0.0;
      y := 0.0;
    }

    /**
     * `handleMouseMove`: without a mounted element (`rect` is None) nothing
     * changes; otherwise both offsets are set from the pointer.
     */
    method MouseMove(rect: Option<Rect>, clientX: real, clientY: real)
      requires rect.Some? ==> rect.value.width > 0.0 && rect.value.height > 0.0
      modifies this
      ensures rect.None? ==> x == old(x) && y == old(y)
      ensures rect.Some? ==>
        && x == Normalise(clientX, rect.value.left, rect.value.width)
        && y == Normalise(clientY, rect.value.top, rect.value.height)
    {
      if rect.None? {
        return;
      }
      var r := rect.value;
      var mouseX := clientX - r.left;
      var mouseY := clientY - r.top;
      x := mouseX / r.width - 0.5;
      y := mouseY / r.height - 0.5;
    }

    /** `handleMouseLeave`: both offsets back to 0. */
    method MouseLeave()
      modifies this
      ensures x == 0.0 && y == 0.0
    {
      x := 0.0;
      y := 0.0;
    }
  }

  /** A pointer anywhere over the card gives offsets in [-0.5, 0.5] on both axes. */
  method MoveInside(r: Rect, clientX: real, clientY: real) returns (x: real, y: real)
    requires r.width > 0.0 && r.height > 0.0
    requires r.left <= clientX <= r.left + r.width && r.top <= clientY <= r.top + r.height
    ensures -0.5 <= x <= 0.5 && -0.5 <= y <= 0.5
    ensures clientX == r.left + r.width / 2.0 && clientY == r.top + r.height / 2.0 ==> x == 0.0 && y == 0.0
  {
    var card := new TiltCard();
    card.MouseMove(Some(r), clientX, clientY);
    x, y := card.x, card.y;
  }

  /** Leaving resets the tilt whatever came before, and leaving again changes nothing. */
  method LeaveAfterMove(rect: Option<Rect>, clientX: real, clientY: real) returns (x1: real, y1: real, x2: real, y2: real)
    requires rect.Some? ==> rect.value.width > 0.0 && rect.value.height > 0.0
    ensures x1 == 0.0 && y1 == 0.0
    ensures x2 == x1 && y2 == y1
  {
    var card := new TiltCard();
    card.MouseMove(rect, clientX, clientY);
    card.MouseLeave();
    x1, y1 := card.x, card.y;
    card.MouseLeave();
    x2, y2 := card.x, card.y;
  }

  /** A move over a card that is not mounted keeps the offsets at their initial 0. */
  method MoveWithoutElement(clientX: real, clientY: real) returns (x: real, y: real)
    ensures x == 0.0 && y == 0.0
  {
    var card := new TiltCard();
    card.MouseMove(None, clientX, clientY);
    x, y := card.x, card.y;
  }
}
