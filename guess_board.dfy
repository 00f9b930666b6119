/**
 * The single-user guess list of the map page (reactsite/src/Chatguessr.tsx): a list
 * of guesses, the index of the selected one and the marker location, changed in
 * place by the page's callbacks; the distance field of each guess row; the colour
 * of each guess; and the chat command text copied for a guess.
 */
module GuessBoard {
  import opened Wrappers
  import opened Geodesic

  /** A guess: where, and how far from there (in metres). */
  datatype Guess = Guess(location: LatLng, distance: real)

  /** A circle as drawn on the map: its polygon and its colour. */
  datatype Circle = Circle(points: seq<LatLng>, color: string)

  const ORIGIN: LatLng := LatLng(0.0, 0.0)

  /** The palette the guesses cycle through. */
  const COLORS: seq<string> := ["red", "green", "blue", "yellow", "magenta"]

  /** A distance typed in km is stored in metres. */
  function KmToMetres(km: real): (m: real)
    ensures MetresToKm(m) == km
  {
    km * 1000.0
  }

  /** A stored distance in metres is drawn as a radius in km. */
  function MetresToKm(m: real): (km: real)
    ensures km * 1000.0 == m
  {
    m / 1000.0
  }

  /** The colour of the i-th guess, both in its row and on the map. */
  function Color(i: nat): (c: string)
    ensures c in COLORS
  {
    COLORS[i % |COLORS|]
  }

  /** Colours repeat with the length of the palette. */
  lemma ColorCycle(i: nat)
    ensures Color(i + |COLORS|) == Color(i)
    ensures i < |COLORS| ==> Color(i) == COLORS[i]
  {
  }

  /** Any five consecutive guesses are drawn in five different colours. */
  lemma NearbyColorsDiffer(i: nat, j: nat)
    requires i < j < i + |COLORS|
    ensures Color(i) != Color(j)
  {
    var a, b := i % |COLORS|, j % |COLORS|;
    assert a != b;
    assert forall x, y :: 0 <= x < y < |COLORS| ==> COLORS[x] != COLORS[y];
  }

  /** `BetterCircle`: the polygon for a radius stored in metres is drawn in km. */
  method BetterCircle(dest: Destination, center: LatLng, radius: real) returns (polys: seq<LatLng>)
    ensures polys == Boundary(dest, center, MetresToKm(radius))
  {
    polys := PolylineFromStart(dest, center, radius / 1000.0);
  }

  /** `GuessMarkers`: one circle per guess, in list order, coloured by its index. */
  function Markers(dest: Destination, guesses: seq<Guess>): (r: seq<Circle>)
    ensures |r| == |guesses|
  {
    seq(|guesses|, i requires 0 <= i < |guesses| =>
      Circle(Boundary(dest, guesses[i].location, MetresToKm(guesses[i].distance)), Color(i)))
  }

  /**
   * A guess whose distance was entered as `km` is drawn as the circle of radius
   * `km` around its location, in the colour of its index.
   */
  lemma MarkerShowsEnteredRadius(dest: Destination, guesses: seq<Guess>, i: nat, km: real)
    requires i < |guesses| && guesses[i].distance == KmToMetres(km)
    ensures Markers(dest, guesses)[i] == Circle(Boundary(dest, guesses[i].location, km), Color(i))
  {
    assert MetresToKm(KmToMetres(km)) == km;
  }

  /** The command `copyGuess` puts on the clipboard, with `show` the number formatting. */
  function CommandText(channel: string, ll: LatLng, show: real -> string): (text: string)
    ensures |text| == |"/w " + channel + " !g "| + |show(ll.lat)| + |", "| + |show(ll.lng)|
    ensures text[..|"/w " + channel + " !g "|] == "/w " + channel + " !g "
    ensures text[|text| - |show(ll.lng)|..] == show(ll.lng)
  {
    "/w " + channel + " !g " + show(ll.lat) + ", " + show(ll.lng)
  }

  /** `copyGuess`: clamp the point, then build the command (the clipboard write is I/O). */
  method CopyGuess(channel: string, c: LatLng, show: real -> string) returns (text: string)
    ensures text == CommandText(channel, LatLng(c.lat, ClampLng(c.lng)), show)
  {
    var ll := ClampLatLng(c);
    text := "/w " + channel + " !g " + show(ll.lat) + ", " + show(ll.lng);
  }

  /**
   * In real arithmetic, the copied command does not depend on which copy of a
   * meridian the map reported, except on the antimeridian itself. With the
   * source's floating-point subtraction the clamped longitude may differ in
   * its last digits, and so may the text.
   */
  lemma CommandTextPeriodic(channel: string, c: LatLng, d: LatLng, show: real -> string)
    requires c.lat == d.lat && SameMeridian(c.lng, d.lng)
    requires -180.0 < ClampLng(c.lng) < 180.0
    ensures CommandText(channel, LatLng(c.lat, ClampLng(c.lng)), show)
         == CommandText(channel, LatLng(d.lat, ClampLng(d.lng)), show)
  {
    ClampPeriodic(c.lng, d.lng);
  }

  /** A point already within [-180, 180] is copied with its own coordinates. */
  lemma CommandTextInRange(channel: string, c: LatLng, show: real -> string)
    requires -180.0 <= c.lng <= 180.0
    ensures CommandText(channel, LatLng(c.lat, ClampLng(c.lng)), show) == CommandText(channel, c, show)
  {
    ClampRange(c.lng);
  }

  /**
   * The state of the `Chatguessr` page: the guess list, the selected index and
   * the marker location. The page's effect that moves the marker to the selected
   * guess runs whenever the selection changes; it is folded into the operations
   * that change the selection.
   */
  class Board {
    var guesses: seq<Guess>
    var selected: nat
    var location: LatLng

    /** The selection is a valid index, and the marker sits on the selected guess. */
    ghost predicate Valid()
      reads this
    {
      selected < |guesses| && location == guesses[selected].location
    }

    /** One guess at (0, 0) with distance 0, selected, with the marker on it. */
    constructor ()
      ensures Valid()
      ensures guesses == [Guess(ORIGIN, 0.0)] && selected == 0 && location == ORIGIN
    {
      guesses := [Guess(ORIGIN, 0.0)];
      selected := 0;
      location := ORIGIN;
    }

    /**
     * `addGuess`: append a guess at (0, 0) whose distance is ten times the old
     * length, and select it (the marker follows the selection).
     */
    method AddGuess()
      requires Valid()
      modifies this
      ensures Valid()
      ensures guesses == old(guesses) + [Guess(ORIGIN, |old(guesses)| as real * 10.0)]
      ensures selected == |guesses| - 1 && location == ORIGIN
    {
      var ng := Guess(ORIGIN, |guesses| as real * 10.0);
      guesses := guesses + [ng];
      selected := |guesses| - 1;
      location := guesses[selected].location;
    }

    /** `setSelected` from a guess row: select the row (the marker follows). */
    method Select(idx: nat)
      requires Valid() && idx < |guesses|
      modifies this
      ensures Valid()
      ensures guesses == old(guesses) && selected == idx && location == guesses[idx].location
    {
      selected := idx;
      location := guesses[selected].location;
    }

    /** `setDistance`: only the distance of guess `idx` changes. */
    method SetDistance(distance: real, idx: nat)
      requires Valid() && idx < |guesses|
      modifies this
      ensures Valid()
      ensures guesses == old(guesses)[idx := Guess(old(guesses)[idx].location, distance)]
      ensures selected == old(selected) && location == old(location)
    {
      var g := guesses[idx];
      g := g.(distance := distance);
      guesses := guesses[idx := g];
    }

    /** `clicked`: only the location of the selected guess changes, and the marker moves there. */
    method Clicked(c: LatLng)
      requires Valid()
      modifies this
      ensures Valid()
      ensures guesses == old(guesses)[old(selected) := Guess(c, old(guesses)[old(selected)].distance)]
      ensures selected == old(selected) && location == c
    {
      var g := guesses[selected];
      g := g.(location := c);
      guesses := guesses[selected := g];
      location := c;
    }

    /**
     * `changeDistance` of the row `idx`: `parsed` is what `parseFloat` made of the
     * text, `None` for NaN. NaN leaves everything as it was; any number (negative
     * ones included) is stored in metres, so that the circle is drawn with the
     * entered radius in km.
     */
    method ChangeDistance(parsed: Option<real>, idx: nat)
      requires Valid() && idx < |guesses|
      modifies this
      ensures Valid()
      ensures parsed.None? ==> guesses == old(guesses)
      ensures parsed.Some? ==>
        guesses == old(guesses)[idx := Guess(old(guesses)[idx].location, KmToMetres(parsed.value))]
      ensures parsed.Some? ==> MetresToKm(guesses[idx].distance) == parsed.value
      ensures selected == old(selected) && location == old(location)
    {
      if parsed.None? {
        return;
      }
      var n := parsed.value * 1000.0;
      SetDistance(n, idx);
    }
  }
}
