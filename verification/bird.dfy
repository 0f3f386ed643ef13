/** The player's bird: its constants and the vertical motion rule applied by
    `bird.update` once per tick (script.js:60-81). The class `Flappy.Game`
    performs the update in place; `Update` below is its specification. */
module Bird {
  const Height: real := 27.0
  const Gravity: real := 0.6
  /** The velocity a flap sets, whatever the velocity was before. */
  const Lift: real := -8.0

  datatype Motion = Motion(y: real, velocity: real)

  /** Where the bird comes to rest after touching the floor: its top edge at
      `floorTop - Height`, moved down to the ceiling when that is above it. */
  function RestingY(floorTop: real): real
  {
    if floorTop - Height < 0.0 then 0.0 else floorTop - Height
  }

  /** Running branch: gravity integration and the floor clamp. */
  function Fall(m: Motion, floorTop: real): (Motion, bool)
  {
    var v := m.velocity + Gravity;
    var y := m.y + v;
    if y + Height >= floorTop then (Motion(floorTop - Height, 0.0), true)
    else (Motion(y, v), false)
  }

  /** Ceiling clamp, applied in every phase. */
  function ClampToCeiling(m: Motion): Motion
  {
    if m.y < 0.0 then Motion(0.0, 0.0) else m
  }

  /** One call of `bird.update`. `hover` is the pre-game position
      `canvas.height / 2 + sin(frame / 10) * 10`; `floorTop` is
      `canvas.height - floorImage.height`. The second component says whether
      the bird touched the floor, which ends the game. */
  function Update(m: Motion, preGame: bool, hover: real, floorTop: real): (r: (Motion, bool))
    // never above the ceiling, in any phase
    ensures r.0.y >= 0.0
    // floor contact happens exactly when the integrated position reaches the floor while running
    ensures r.1 <==> !preGame && m.y + m.velocity + Gravity + Height >= floorTop
    ensures r.1 ==> r.0 == Motion(RestingY(floorTop), 0.0)
    // while running the bird never ends below the floor (when the floor leaves room for it)
    ensures !preGame && floorTop >= Height ==> r.0.y + Height <= floorTop
    // semi-implicit Euler step when no clamp applies
    ensures !preGame && !r.1 && m.y + m.velocity + Gravity >= 0.0 ==>
              r.0 == Motion(m.y + m.velocity + Gravity, m.velocity + Gravity)
    ensures !preGame && !r.1 && m.y + m.velocity + Gravity < 0.0 ==> r.0 == Motion(0.0, 0.0)
    // pre-game: only the position follows the hover, no physics, no game over
    ensures preGame && hover >= 0.0 ==> r.0 == Motion(hover, m.velocity)
    ensures preGame && hover < 0.0 ==> r.0 == Motion(0.0, 0.0)
  {
    var (moved, landed) := if preGame then (Motion(hover, m.velocity), false) else Fall(m, floorTop);
    (ClampToCeiling(moved), landed)
  }
}
