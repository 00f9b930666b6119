# cheatguessr core, modelled in Dafny

cheatguessr is a companion map for a guess-the-location game. A user clicks points on a
world map to place guesses and types a distance for each; the page draws a circle of that
radius around every guess, and copies a guess as a chat command. A small Go server relays
guesses between connected browsers and, optionally, from a bot.

This project models two cores:

- **The map page** (`reactsite/src/Chatguessr.tsx`):
  - the polygon approximating a circle: 720 samples, one every half degree of bearing, split
    at bearing 180 beyond 10007 km, with the shift rule for the two halves;
  - `ClampLatLng`, which brings a longitude into [-180, 180];
  - the guess list the page keeps (add a guess, select one, set its distance, move it by a click);
  - validating the distance field;
  - the km/metre conversion between entry and drawing;
  - the colour of each guess;
  - the shape of the copied command.
- **The relay** (`cmd/cheatguessr/main.go`):
  - the registry of connected clients, and the `add`, `rem` and `send` closures its goroutine
    applies in arrival order;
  - the connection handler's lifecycle and how it stamps inbound messages;
  - the bot feed;
  - the static file system's fallback to `/index.html`.

Files:

- `wrappers.dfy`: the `Option` type.
- `geodesic.dfy` (module `Geodesic`): the polygon and the longitude clamp.
- `guess_board.dfy` (module `GuessBoard`): the guess list as a class `Board`, plus colours,
  markers and the copied command.
- `relay.dfy` (module `Relay`): the registry as a class `Hub`, its replay semantics and the
  handler, bot and file-system pieces.

Modelling choices:

- The destination formula `GetLatLng(start, DegToRad(bearing), distance)` is a function
  parameter `dest`, with the bearing in degrees. Every polygon property therefore holds for
  any destination formula.
- Bearings are integer half-degree indices `k`, and sample `k` has bearing `k/2`. The source
  steps a floating-point `i` by 0.5. Those steps are exact, so the two loop forms take the
  same samples.
- Go channels are client identifiers. The registry goroutine becomes `Hub.Run`, which applies
  the queued closures (`Update`) one at a time.
- A decoded JSON frame is `Some(value)`, and a frame that fails to decode is `None`. The
  number formatting used in the copied command is a parameter `show`. The result of
  `parseFloat` is an `Option<real>`, where `None` stands for NaN.

Behaviour of the code that is easy to miss:

- `ClampLatLng` returns longitudes in [-180, 180], not (-180, 180]. A longitude on the
  antimeridian comes back as -180 when it was at or west of -180 (-180, -540, ...), and as
  180 otherwise (`ClampSeam`). So clamping is periodic everywhere except on the antimeridian
  (`ClampPeriodic`).
- The distance field rejects only NaN. A negative number is stored like any other
  (`Board.ChangeDistance`).

## Model

| member | source | states |
|---|---|---|
| Geodesic.Ring | reactsite/src/Chatguessr.tsx:34-38 | the unsplit ring has exactly 720 points |
| Geodesic.SplitRing | reactsite/src/Chatguessr.tsx:50-63 | the split ring has 361 + 359 = 720 points |
| Geodesic.Boundary | reactsite/src/Chatguessr.tsx:29-33 | the polygon has 720 points whichever side of the threshold the radius is |
| Geodesic.HalfShifts | reactsite/src/Chatguessr.tsx:43-49 | the two half shifts are one full turn apart and bracket 0; the first is 0 exactly when the centre longitude is <= 0 (each point's shift: `SplitShiftRule`) |
| Geodesic.PolylineFromStart | reactsite/src/Chatguessr.tsx:29-39 | the sampling loop builds exactly the polygon `Boundary`: the single ring up to 10007 km, the split ring beyond |
| Geodesic.PolylineFromStartConnected | reactsite/src/Chatguessr.tsx:40-64 | the two loops build exactly the split ring: bearings 0..180 inclusive shifted by a, then bearings 180.5..359.5 shifted by b |
| Geodesic.BearingsCoverTurn | reactsite/src/Chatguessr.tsx:51-57 | the samples run from 0 to 359.5 degrees in half-degree steps; sample k has bearing at most 180 exactly when it is among the first 361 |
| Geodesic.SmallCircleIsRing | reactsite/src/Chatguessr.tsx:34-38 | up to 10007 km, point k is the unshifted destination at bearing k/2, in increasing bearing order |
| Geodesic.BoundaryShifts | reactsite/src/Chatguessr.tsx:51-62 | every point keeps its sample's latitude; its longitude is the sample's plus the shift of its half (0 when unsplit) |
| Geodesic.SplitShiftRule | reactsite/src/Chatguessr.tsx:42-49 | (a, b) = (0, 360) for a centre longitude <= 0 and (-360, 0) for one > 0; the second half is always one full turn east of the first |
| Geodesic.ClampLatLng | reactsite/src/Chatguessr.tsx:87-94 | the two loops terminate and return the latitude unchanged and the longitude `ClampLng` |
| Geodesic.WrapDown | reactsite/src/Chatguessr.tsx:90 | the first loop ends at or below 180, and above -180 when it ran at all (whole turns, identity in range: `WrapDownSpec`) |
| Geodesic.WrapUp | reactsite/src/Chatguessr.tsx:91 | the second loop ends at or above -180, and below 180 when it ran at all (whole turns, identity in range: `WrapUpSpec`) |
| Geodesic.ClampLng | reactsite/src/Chatguessr.tsx:87-94 | the clamped longitude lies in [-180, 180] (same meridian, idempotence, periodicity: `ClampRange`, `ClampIdempotent`, `ClampPeriodic`, `ClampSeam`) |
| Geodesic.WrapDownSpec | reactsite/src/Chatguessr.tsx:90 | the first loop ends at or below 180, above -180 if it ran at all, changes the longitude by whole turns only, and leaves a longitude <= 180 as it is |
| Geodesic.WrapUpSpec | reactsite/src/Chatguessr.tsx:91 | the second loop ends at or above -180, below 180 if it ran at all, changes the longitude by whole turns only, and leaves a longitude >= -180 as it is |
| Geodesic.ClampRange | reactsite/src/Chatguessr.tsx:87-94 | the output longitude is in [-180, 180] and on the input's meridian; an input already in range is returned unchanged |
| Geodesic.ClampIdempotent | reactsite/src/Chatguessr.tsx:90-91 | clamping a clamped longitude changes nothing |
| Geodesic.ClampAvoidsWestSeam | reactsite/src/Chatguessr.tsx:90-91 | an input above -180 comes out in (-180, 180] |
| Geodesic.ClampPeriodic | reactsite/src/Chatguessr.tsx:90-91 | longitudes of the same meridian clamp to the same value unless that meridian is the antimeridian |
| Geodesic.ClampSeam | reactsite/src/Chatguessr.tsx:90-91 | a longitude on the antimeridian comes out as -180 if it was at or below -180, and as 180 otherwise |
| GuessBoard.Color | reactsite/src/Chatguessr.tsx:229 | a guess's colour is one of the palette's |
| GuessBoard.KmToMetres | reactsite/src/Chatguessr.tsx:271 | a distance entered in km and stored in metres reads back as the same km |
| GuessBoard.MetresToKm | reactsite/src/Chatguessr.tsx:83 | the km radius drawn for a stored distance gives back the stored metres when multiplied by 1000 |
| GuessBoard.ColorCycle | reactsite/src/Chatguessr.tsx:257 | colours repeat every five guesses, and the first five take the palette in order |
| GuessBoard.NearbyColorsDiffer | reactsite/src/Chatguessr.tsx:278 | any five consecutive guesses get five different colours |
| GuessBoard.BetterCircle | reactsite/src/Chatguessr.tsx:80-86 | the polygon for a radius stored in metres is the one for that radius in km |
| GuessBoard.Markers | reactsite/src/Chatguessr.tsx:226-232 | there is one circle per guess |
| GuessBoard.MarkerShowsEnteredRadius | reactsite/src/Chatguessr.tsx:270-275 | a guess whose distance was entered as km is drawn as the polygon of radius km around its location, coloured by its index |
| GuessBoard.CopyGuess | reactsite/src/Chatguessr.tsx:285-290 | the copied text is "/w " + channel + " !g " + lat + ", " + lng of the clamped point |
| GuessBoard.CommandText | reactsite/src/Chatguessr.tsx:288 | the command starts with "/w " + channel + " !g ", ends with the formatted longitude, and has exactly the length of its parts (periodicity and in-range use: `CommandTextPeriodic`, `CommandTextInRange`) |
| GuessBoard.CommandTextPeriodic | reactsite/src/Chatguessr.tsx:285-288 | two clicks on the same meridian and latitude copy the same text, except on the antimeridian |
| GuessBoard.CommandTextInRange | reactsite/src/Chatguessr.tsx:286-288 | a point with longitude in [-180, 180] is copied with its own coordinates |
| GuessBoard.Board.constructor | reactsite/src/Chatguessr.tsx:109-111 | one guess at (0, 0) with distance 0, selected, with the marker on it |
| GuessBoard.Board.AddGuess | reactsite/src/Chatguessr.tsx:116-125 | appends a guess at (0, 0) with distance 10 x old length, earlier guesses unchanged, and selects the new last index |
| GuessBoard.Board.Select | reactsite/src/Chatguessr.tsx:112-114 | selects a row and moves the marker to that guess; the list is unchanged |
| GuessBoard.Board.SetDistance | reactsite/src/Chatguessr.tsx:127-135 | only guess idx's distance changes; length, other guesses, selection and marker are unchanged |
| GuessBoard.Board.Clicked | reactsite/src/Chatguessr.tsx:144-152 | only the selected guess's location changes, to c; the marker moves to c |
| GuessBoard.Board.ChangeDistance | reactsite/src/Chatguessr.tsx:268-276 | NaN leaves the list untouched; a number km is stored as km x 1000, which is drawn again as km |
| Relay.Announcement | cmd/cheatguessr/main.go:151 | the connect or disconnect guess carries the connection's ident and the opcode, with Go zero values elsewhere |
| Relay.Recipients | cmd/cheatguessr/main.go:116-119 | a broadcast is offered only to registered clients, none of which carries the guess's ident (sender excluded: `RecipientsAllButSender`) |
| Relay.RecipientsAllButSender | cmd/cheatguessr/main.go:114-127 | the sender is never offered its own guess; with unique idents, every other registered client is |
| Relay.ApplyRegistration | cmd/cheatguessr/main.go:102-113 | `add` sets the client's ident and leaves other keys alone; `rem` removes that key only |
| Relay.Apply | cmd/cheatguessr/main.go:103-126 | a broadcast leaves the registry as it is; an `add` registers its client under its ident; a `rem` leaves its client unregistered (other keys: `ApplyRegistration`) |
| Relay.Replay | cmd/cheatguessr/main.go:93-98 | after the goroutine applies a queue, the last closure decides the entry it names: registered under its ident after a trailing `add`, absent after a trailing `rem` (composition and frame: `ReplayAppend`, `ReplayFrame`) |
| Relay.ReplayAppend | cmd/cheatguessr/main.go:93-98 | the goroutine applying two queues in turn equals applying their concatenation |
| Relay.ReplaySendsOnly | cmd/cheatguessr/main.go:114-127 | broadcasts never change the registry |
| Relay.ReplayFrame | cmd/cheatguessr/main.go:93-113 | under any interleaving, a client's entry changes only by its own `add` or `rem` |
| Relay.Stamp | cmd/cheatguessr/main.go:171-172 | a relayed guess carries the connection's ident and the message opcode, and keeps the client's location and distance |
| Relay.StampIgnoresClaims | cmd/cheatguessr/main.go:167-173 | the ident and opcode a client sends have no effect on what is relayed |
| Relay.BotGuess | cmd/cheatguessr/main.go:215-220 | a bot guess has the decoded location, distance 0, the bot's name as ident and the bot opcode |
| Relay.ReadLoop | cmd/cheatguessr/main.go:165-176 | every decoded frame up to the first undecodable one is relayed in order, stamped |
| Relay.BotFeed | cmd/cheatguessr/main.go:204-223 | every message up to the first undecodable one becomes, in order, the bot guess for its location |
| Relay.Session | cmd/cheatguessr/main.go:151-156 | a connection queues its connect broadcast, its `add`, its relayed guesses, its `rem` and its disconnect broadcast, in that order |
| Relay.SessionRestores | cmd/cheatguessr/main.go:151-156 | a fresh client that has connected and gone leaves the registry as it found it |
| Relay.OpenFallback | cmd/cheatguessr/main.go:232-238 | a name that opens is served as itself, and any other name is served the index; with the index present, no request fails |
| Relay.Open | cmd/cheatguessr/main.go:232-238 | the result is the opened name or the opened index, and is a file exactly when one of the two opens succeeds (which one: `OpenFallback`) |
| Relay.Hub.constructor | cmd/cheatguessr/main.go:92 | the registry starts empty |
| Relay.Hub.Add | cmd/cheatguessr/main.go:102-107 | registers c under ident and changes no other key |
| Relay.Hub.Rem | cmd/cheatguessr/main.go:108-113 | removes key c only; nothing happens if c is absent |
| Relay.Hub.Send | cmd/cheatguessr/main.go:114-127 | the walk over the registry offers the guess to exactly `Recipients`, and the registry is unchanged |
| Relay.Hub.Step | cmd/cheatguessr/main.go:95-96 | applying one closure updates the registry as `Apply` says; only a broadcast has recipients |
| Relay.Hub.Run | cmd/cheatguessr/main.go:90-100 | the goroutine's loop leaves the registry at `Replay` of the queue, and broadcast i is offered to the recipients of the registry as it stood then |
| Relay.Hub.Handle | cmd/cheatguessr/main.go:149-186 | connect is announced before registering and disconnect after deregistering; every decoded frame up to the first undecodable one is relayed, stamped, and offered to the others; the client is offered none of its own announcements or guesses, and the registry is restored |

## Left out

- The spherical trigonometry of `GetLatLng`, `DegToRad` and `RadToDeg` is a parameter. No
  claim is made about distances on the sphere, about NaN near the poles, or about continuity
  of the ring.
- Floating point is not modelled: coordinates and distances are `real`. The Go side's
  `float32` fields are also `real`. NaN and the infinities are not modelled.
- Geodesic.ClampLatLng: its termination holds for real arithmetic only. In IEEE doubles,
  `lng -= 360` leaves any longitude above about 2^62 unchanged, so the source's first loop
  never ends for such finite inputs, nor for an infinite one.
- Geodesic.ClampPeriodic: holds for real arithmetic only. Rounding in `lng -= 360` can change
  the last digits: 370.1 - 360 is 10.100000000000023 in doubles, not 10.1.
- GuessBoard.CommandTextPeriodic: holds for real arithmetic only. For the same reason, a
  click at longitude 370.1 copies "10.100000000000023" where a click at 10.1 copies "10.1".
- React state hooks, re-rendering and Leaflet components, tiles and markers are not modelled.
  The page's callbacks mutate the guess array in place and then pass the same array to
  `setGuesses`. That change-detection behaviour is outside the model; `Board` records the
  state the callbacks leave behind.
- The page's effect that moves the marker to the selected guess is folded into
  `Board.AddGuess` and `Board.Select`, the two operations that change the selection.
- Browser clipboard I/O (`copyToClipboard`) is not modelled, and neither is number-to-string
  conversion. `CopyGuess` returns the text that would be copied.
- Goroutines and channels are not modelled. The registry goroutine applies closures
  sequentially (`Hub.Run`). A non-blocking send may or may not be taken; broadcasts return
  the set of clients they offer the guess to.
- Relay.Hub.Handle: runs one connection alone and lets its read loop finish before
  deregistering. In the source the handler ends when a write fails, and the reader goroutine
  can still relay after `rem`.
- Websocket upgrade, reads and writes are not modelled; a JSON decode is an `Option` frame.
  The `openSocket` redial-after-sleep loop is not modelled; `BotFeed` is one connection's
  read loop.
- Random ident generation, the HTTP server and mux, the development proxy and flag parsing
  are configuration and I/O, and are not modelled.
- JSON encoding of `LatLng` and `Guess` is a library's serialisation, and is not modelled.
