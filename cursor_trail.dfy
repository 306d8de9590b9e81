/**
 * The pointer-trail particle pool of the custom cursor
 * (frontend/src/components/CustomCursor.tsx, `CursorTrail`).
 *
 * Mouse moves append particles to a pool capped at `MaxParticles`; every
 * rendered frame decays and moves each particle, drops the dead ones, and
 * writes the survivors into three flat buffers (positions, sizes, colours)
 * for the renderer. Arithmetic is exact `real` arithmetic.
 */
module CursorTrail {
  import opened Common

  /** Capacity of the pool (`maxParticles`). */
  const MaxParticles: nat := 50
  /** Life subtracted from every particle on every frame. */
  const LifeDecay: real := 0.02
  /** Scale from normalised device coordinates to world units. */
  const WorldScale: real := 5.0
  /** Scale from remaining life to point size. */
  const SizeScale: real := 0.1
  /** Initial, and maximal, life of a particle. */
  const SpawnLife: real := 1.0
  /** Width of the interval a random velocity component is drawn from. */
  const VelocitySpread: real := 0.02

  datatype Vec3 = Vec3(x: real, y: real, z: real) {
    /** `Vector3.add`: the component-wise sum. */
    function Add(v: Vec3): Vec3 {
      Vec3(x + v.x, y + v.y, z + v.z)
    }
  }

  datatype Particle = Particle(position: Vec3, velocity: Vec3, life: real, maxLife: real)

  /** A pointer position in normalised device coordinates (`mousePos.current`). */
  datatype Ndc = Ndc(x: real, y: real)

  /** The three buffer attributes handed to the renderer each frame. */
  datatype Geometry = Geometry(positions: array<real>, sizes: array<real>, colors: array<real>)

  /** A particle the pool may hold: still alive, and never above its maximal life of 1. */
  predicate Live(p: Particle) {
    p.maxLife == SpawnLife && 0.0 < p.life <= p.maxLife
  }

  predicate AllLive(ps: seq<Particle>) {
    forall i :: 0 <= i < |ps| ==> Live(ps[i])
  }

  // ---- Spawning on a mouse move ---------------------------------------------

  /** Horizontal pixel coordinate to device coordinate: the left and right edges of the window go to -1 and 1. */
  function NdcX(clientX: real, innerWidth: real): (x: real)
    requires innerWidth > 0.0
    ensures (x + 1.0) / 2.0 * innerWidth == clientX
    ensures 0.0 <= clientX <= innerWidth ==> -1.0 <= x <= 1.0
  {
    (clientX / innerWidth) * 2.0 - 1.0
  }

  /** Vertical pixel coordinate to device coordinate: the axis is flipped, the top edge goes to 1. */
  function NdcY(clientY: real, innerHeight: real): (y: real)
    requires innerHeight > 0.0
    ensures (1.0 - y) / 2.0 * innerHeight == clientY
    ensures 0.0 <= clientY <= innerHeight ==> -1.0 <= y <= 1.0
  {
    -(clientY / innerHeight) * 2.0 + 1.0
  }

  /** A velocity component from one draw `random` of `Math.random()`, which lies in [0, 1). */
  function Jitter(random: real): (v: real)
    requires 0.0 <= random < 1.0
    ensures -0.01 <= v < 0.01
  {
    (random - 0.5) * VelocitySpread
  }

  /** The particle a mouse move at pointer `at` spawns, given the two random draws. */
  function Spawned(at: Ndc, randomX: real, randomY: real): (p: Particle)
    requires 0.0 <= randomX < 1.0 && 0.0 <= randomY < 1.0
    ensures Live(p) && p.life == p.maxLife == SpawnLife
    ensures p.position.z == 0.0 && p.velocity.z == 0.0
    ensures -0.01 <= p.velocity.x < 0.01 && -0.01 <= p.velocity.y < 0.01
  {
    Particle(Vec3(at.x * WorldScale, at.y * WorldScale, 0.0),
             Vec3(Jitter(randomX), Jitter(randomY), 0.0),
             SpawnLife, SpawnLife)
  }

  /**
   * Wherever the pointer is (a drag can report it outside the window), a
   * spawned particle starts at five times the pointer's device coordinates:
   * its position maps back to the pointer's pixel coordinates.
   */
  lemma SpawnedAtPointer(clientX: real, clientY: real, innerWidth: real, innerHeight: real,
                         randomX: real, randomY: real)
    requires innerWidth > 0.0 && innerHeight > 0.0
    requires 0.0 <= randomX < 1.0 && 0.0 <= randomY < 1.0
    ensures var p := Spawned(Ndc(NdcX(clientX, innerWidth), NdcY(clientY, innerHeight)), randomX, randomY);
      && (p.position.x / WorldScale + 1.0) / 2.0 * innerWidth == clientX
      && (1.0 - p.position.y / WorldScale) / 2.0 * innerHeight == clientY
  {
    var x, y := NdcX(clientX, innerWidth), NdcY(clientY, innerHeight);
    var p := Spawned(Ndc(x, y), randomX, randomY);
    assert p.position.x / WorldScale == x;
    assert p.position.y / WorldScale == y;
  }

  /** A particle spawned while the pointer is inside the window starts inside the 10 x 10 square of the z = 0 plane. */
  lemma SpawnedInsideView(clientX: real, clientY: real, innerWidth: real, innerHeight: real,
                          randomX: real, randomY: real)
    requires innerWidth > 0.0 && innerHeight > 0.0
    requires 0.0 <= randomX < 1.0 && 0.0 <= randomY < 1.0
    requires 0.0 <= clientX <= innerWidth && 0.0 <= clientY <= innerHeight
    ensures var p := Spawned(Ndc(NdcX(clientX, innerWidth), NdcY(clientY, innerHeight)), randomX, randomY);
      && -WorldScale <= p.position.x <= WorldScale
      && -WorldScale <= p.position.y <= WorldScale
  {
  }

  // ---- One frame --------------------------------------------------------------

  /** One frame's update of one particle: life decays by `LifeDecay` and the position moves by the velocity. */
  function Advance(p: Particle): (q: Particle)
    ensures q.life == p.life - LifeDecay
    ensures q.position == Vec3(p.position.x + p.velocity.x, p.position.y + p.velocity.y, p.position.z + p.velocity.z)
    ensures q.velocity == p.velocity && q.maxLife == p.maxLife
  {
    p.(position := p.position.Add(p.velocity), life := p.life - LifeDecay)
  }

  /** The pool after one frame: every particle advanced, and those whose life is no longer positive dropped. */
  function Survivors(ps: seq<Particle>): (r: seq<Particle>)
    ensures |r| <= |ps|
    ensures forall i :: 0 <= i < |r| ==> r[i].life > 0.0
  {
    if ps == [] then []
    else
      var q := Advance(ps[|ps| - 1]);
      Survivors(ps[..|ps| - 1]) + (if q.life > 0.0 then [q] else [])
  }

  /** A frame keeps the pool's invariant: survivors are alive and no longer above their maximal life. */
  lemma {:induction false} SurvivorsLive(ps: seq<Particle>)
    requires AllLive(ps)
    ensures AllLive(Survivors(ps))
  {
    if ps != [] {
      SurvivorsLive(ps[..|ps| - 1]);
    }
  }

  /**
   * The survivors are exactly the advanced particles whose life stayed
   * positive, in their original order: `idx` lists where each survivor came
   * from, strictly increasing, and every particle still alive is listed.
   */
  lemma {:induction false} SurvivorOrigins(ps: seq<Particle>) returns (idx: seq<nat>)
    ensures |idx| == |Survivors(ps)|
    ensures forall k :: 0 <= k < |idx| ==> idx[k] < |ps| && Survivors(ps)[k] == Advance(ps[idx[k]])
    ensures forall k, l :: 0 <= k < l < |idx| ==> idx[k] < idx[l]
    ensures forall i :: 0 <= i < |ps| && Advance(ps[i]).life > 0.0 ==> i in idx
  {
    if ps == [] {
      idx := [];
    } else {
      var n := |ps| - 1;
      var front := ps[..n];
      var before := SurvivorOrigins(front);
      assert forall i :: 0 <= i < n ==> front[i] == ps[i];
      if Advance(ps[n]).life > 0.0 {
        idx := before + [n];
      } else {
        idx := before;
      }
    }
  }

  /** The pool after `k` frames with no spawns in between. */
  function Frames(ps: seq<Particle>, k: nat): seq<Particle> {
    if k == 0 then ps else Survivors(Frames(ps, k - 1))
  }

  /** One frame lowers every life bound by exactly `LifeDecay`. */
  lemma {:induction false} SurvivorsDecay(ps: seq<Particle>, bound: real)
    requires forall i :: 0 <= i < |ps| ==> ps[i].life <= bound
    ensures forall i :: 0 <= i < |Survivors(ps)| ==> Survivors(ps)[i].life <= bound - LifeDecay
  {
    if ps != [] {
      SurvivorsDecay(ps[..|ps| - 1], bound);
    }
  }

  /** After `k` frames every particle has life at most `1 - 0.02 k`. */
  lemma {:induction false} LifeBoundAfterFrames(ps: seq<Particle>, k: nat)
    requires AllLive(ps)
    ensures forall i :: 0 <= i < |Frames(ps, k)| ==> Frames(ps, k)[i].life <= SpawnLife - (k as real) * LifeDecay
  {
    if k > 0 {
      LifeBoundAfterFrames(ps, k - 1);
      SurvivorsDecay(Frames(ps, k - 1), SpawnLife - ((k - 1) as real) * LifeDecay);
    }
  }

  /** Whatever the pool holds, it is empty after 50 frames without spawns. */
  lemma EmptyAfterFiftyFrames(ps: seq<Particle>)
    requires AllLive(ps)
    ensures Frames(ps, 50) == []
  {
    LifeBoundAfterFrames(ps, 49);
    LastFrame(Frames(ps, 49));
  }

  /** Particles with at most one frame's decay of life left all die on the next frame. */
  lemma {:induction false} LastFrame(ps: seq<Particle>)
    requires forall i :: 0 <= i < |ps| ==> ps[i].life <= LifeDecay
    ensures Survivors(ps) == []
  {
    if ps != [] {
      LastFrame(ps[..|ps| - 1]);
    }
  }

  /** Closed form of a particle left alone for `k` frames: `k` decays of life and `k` steps of its velocity. */
  function AfterFrames(p: Particle, k: nat): Particle {
    var t := k as real;
    p.(position := Vec3(p.position.x + t * p.velocity.x,
                        p.position.y + t * p.velocity.y,
                        p.position.z + t * p.velocity.z),
       life := p.life - t * LifeDecay)
  }

  /** One more step of size `v`: `t` steps and one make `t + 1` steps. */
  lemma OneMoreStep(t: real, v: real)
    ensures t * v + v == (t + 1.0) * v
  {
  }

  lemma AdvanceAfterFrames(p: Particle, k: nat)
    requires k > 0
    ensures Advance(AfterFrames(p, k - 1)) == AfterFrames(p, k)
  {
    var t := (k - 1) as real;
    assert t + 1.0 == k as real;
    OneMoreStep(t, p.velocity.x);
    OneMoreStep(t, p.velocity.y);
    OneMoreStep(t, p.velocity.z);
    OneMoreStep(t, LifeDecay);
    var q, r := AfterFrames(p, k - 1), AfterFrames(p, k);
    assert q.position.x + p.velocity.x == r.position.x;
    assert q.position.y + p.velocity.y == r.position.y;
    assert q.position.z + p.velocity.z == r.position.z;
    assert q.life - LifeDecay == r.life;
  }

  /**
   * A freshly spawned particle on its own lives exactly 49 frames: after
   * `k < 50` frames it has life `1 - 0.02 k` and has moved by `k` times its
   * velocity; the 50th frame removes it.
   */
  lemma {:induction false} FreshParticleLifetime(p: Particle, k: nat)
    requires p.life == SpawnLife
    ensures k < 50 ==> Frames([p], k) == [AfterFrames(p, k)]
    ensures k >= 50 ==> Frames([p], k) == []
  {
    if k > 0 {
      FreshParticleLifetime(p, k - 1);
      if k <= 50 {
        var q := AfterFrames(p, k - 1);
        AdvanceAfterFrames(p, k);
        assert Frames([p], k) == Survivors([q]);
        assert Survivors([q]) == Survivors([]) + (if Advance(q).life > 0.0 then [Advance(q)] else []);
      }
    }
  }

  // ---- Buffer layout ------------------------------------------------------------

  /** Position buffer: x, y and z of each particle in turn (stride 3). */
  function PositionBuffer(ps: seq<Particle>): (r: seq<real>)
    ensures |r| == 3 * |ps|
  {
    if ps == [] then []
    else
      var p := ps[|ps| - 1];
      PositionBuffer(ps[..|ps| - 1]) + [p.position.x, p.position.y, p.position.z]
  }

  /** Size buffer: each particle's life scaled by `SizeScale` (stride 1). */
  function SizeBuffer(ps: seq<Particle>): (r: seq<real>)
    ensures |r| == |ps|
  {
    if ps == [] then []
    else SizeBuffer(ps[..|ps| - 1]) + [ps[|ps| - 1].life * SizeScale]
  }

  /** Remaining life as a fraction of the maximal life (`lifePct`). */
  function LifeFraction(p: Particle): real
    requires p.maxLife != 0.0
  {
    p.life / p.maxLife
  }

  /** Colour buffer: red, green and blue of each particle in turn (stride 3), fading from purple to blue. */
  function ColorBuffer(ps: seq<Particle>): (r: seq<real>)
    requires forall i :: 0 <= i < |ps| ==> ps[i].maxLife != 0.0
    ensures |r| == 3 * |ps|
  {
    if ps == [] then []
    else
      var f := LifeFraction(ps[|ps| - 1]);
      ColorBuffer(ps[..|ps| - 1]) + [0.3 + f * 0.5, 0.4 + f * 0.3, 1.0]
  }

  /** Slots `3i .. 3i+2` and slot `i` of the buffers belong to particle `i`. */
  lemma {:induction false} BufferLayout(ps: seq<Particle>, i: nat)
    requires i < |ps|
    requires forall j :: 0 <= j < |ps| ==> ps[j].maxLife != 0.0
    ensures PositionBuffer(ps)[3 * i] == ps[i].position.x
    ensures PositionBuffer(ps)[3 * i + 1] == ps[i].position.y
    ensures PositionBuffer(ps)[3 * i + 2] == ps[i].position.z
    ensures SizeBuffer(ps)[i] == ps[i].life * SizeScale
    ensures ColorBuffer(ps)[3 * i] == 0.3 + LifeFraction(ps[i]) * 0.5
    ensures ColorBuffer(ps)[3 * i + 1] == 0.4 + LifeFraction(ps[i]) * 0.3
    ensures ColorBuffer(ps)[3 * i + 2] == 1.0
  {
    var n := |ps| - 1;
    if i < n {
      BufferLayout(ps[..n], i);
    }
  }

  /** For a pool that keeps its invariant, sizes lie in (0, 0.1], red in (0.3, 0.8], green in (0.4, 0.7], blue is 1. */
  lemma BufferRanges(ps: seq<Particle>, i: nat)
    requires AllLive(ps) && i < |ps|
    ensures 0.0 < SizeBuffer(ps)[i] <= SizeScale
    ensures 0.3 < ColorBuffer(ps)[3 * i] <= 0.8
    ensures 0.4 < ColorBuffer(ps)[3 * i + 1] <= 0.7
    ensures ColorBuffer(ps)[3 * i + 2] == 1.0
  {
    BufferLayout(ps, i);
    assert Live(ps[i]);
    assert LifeFraction(ps[i]) == ps[i].life;
  }

  // ---- Writing one particle's slots (the body of the `forEach` pass) ----------

  /** Writes particle `i`'s position into slots `3i .. 3i+2`, extending the filled prefix by one particle. */
  method WritePosition(positions: array<real>, ps: seq<Particle>, i: nat)
    requires i < |ps| && positions.Length == 3 * |ps|
    requires positions[..3 * i] == PositionBuffer(ps[..i])
    modifies positions
    ensures positions[..3 * (i + 1)] == PositionBuffer(ps[..i + 1])
  {
    var p := ps[i];
    assert ps[..i + 1][..i] == ps[..i];
    positions[3 * i] := p.position.x;
    positions[3 * i + 1] := p.position.y;
    positions[3 * i + 2] := p.position.z;
    assert positions[..3 * (i + 1)] == positions[..3 * i] + [p.position.x, p.position.y, p.position.z];
  }

  /** Writes particle `i`'s size into slot `i`, extending the filled prefix by one particle. */
  method WriteSize(sizes: array<real>, ps: seq<Particle>, i: nat)
    requires i < |ps| && sizes.Length == |ps|
    requires sizes[..i] == SizeBuffer(ps[..i])
    modifies sizes
    ensures sizes[..i + 1] == SizeBuffer(ps[..i + 1])
  {
    var p := ps[i];
    assert ps[..i + 1][..i] == ps[..i];
    sizes[i] := p.life * SizeScale;
    assert sizes[..i + 1] == sizes[..i] + [p.life * SizeScale];
  }

  /** Writes particle `i`'s colour into slots `3i .. 3i+2`, extending the filled prefix by one particle. */
  method WriteColor(colors: array<real>, ps: seq<Particle>, i: nat)
    requires i < |ps| && colors.Length == 3 * |ps|
    requires forall j :: 0 <= j < |ps| ==> ps[j].maxLife != 0.0
    requires colors[..3 * i] == ColorBuffer(ps[..i])
    modifies colors
    ensures colors[..3 * (i + 1)] == ColorBuffer(ps[..i + 1])
  {
    var p := ps[i];
    assert ps[..i + 1][..i] == ps[..i];
    var lifePct := p.life / p.maxLife;
    colors[3 * i] := 0.3 + lifePct * 0.5;
    colors[3 * i + 1] := 0.4 + lifePct * 0.3;
    colors[3 * i + 2] := 1.0;
    assert colors[..3 * (i + 1)] == colors[..3 * i] + [0.3 + lifePct * 0.5, 0.4 + lifePct * 0.3, 1.0];
  }

  // ---- The pool ------------------------------------------------------------------

  class Trail {
    /** `particles.current`: the pool, oldest particle first. */
    var particles: seq<Particle>
    /** `mousePos.current`: the last pointer position in device coordinates. */
    var mousePos: Ndc

    /** The pool never holds more than `MaxParticles` particles, and each of them is live. */
    ghost predicate Valid()
      reads this
    {
      |particles| <= MaxParticles && AllLive(particles)
    }

    constructor ()
      ensures Valid()
      ensures particles == [] && mousePos == Ndc(0.0, 0.0)
    {
      particles := [];
      mousePos := Ndc(0.0, 0.0);
    }

    /**
     * `handleMouseMove`: records the pointer in device coordinates and spawns
     * one particle there if the pool has room; at capacity the move is dropped.
     */
    method MouseMove(clientX: real, clientY: real, innerWidth: real, innerHeight: real,
                     randomX: real, randomY: real)
      requires Valid()
      requires innerWidth > 0.0 && innerHeight > 0.0
      requires 0.0 <= randomX < 1.0 && 0.0 <= randomY < 1.0
      modifies this
      ensures Valid()
      ensures mousePos == Ndc(NdcX(clientX, innerWidth), NdcY(clientY, innerHeight))
      ensures |old(particles)| < MaxParticles ==> particles == old(particles) + [Spawned(mousePos, randomX, randomY)]
      ensures |old(particles)| >= MaxParticles ==> particles == old(particles)
    {
      mousePos := Ndc((clientX / innerWidth) * 2.0 - 1.0, -(clientY / innerHeight) * 2.0 + 1.0);
      if |particles| < MaxParticles {
        var p := Particle(Vec3(mousePos.x * WorldScale, mousePos.y * WorldScale, 0.0),
                          Vec3((randomX - 0.5) * VelocitySpread, (randomY - 0.5) * VelocitySpread, 0.0),
                          SpawnLife, SpawnLife);
        particles := particles + [p];
      }
    }

    /** The `filter` pass of a frame: decay and move every particle, keep those still alive, in order. */
    method Step()
      requires Valid()
      modifies this
      ensures Valid()
      ensures particles == Survivors(old(particles))
      ensures mousePos == old(mousePos)
    {
      var kept: seq<Particle> := [];
      var i := 0;
      while i < |particles|
        invariant 0 <= i <= |particles|
        invariant kept == Survivors(particles[..i])
      {
        var p := particles[i];
        p := p.(life := p.life - LifeDecay);
        p := p.(position := p.position.Add(p.velocity));
        assert particles[..i + 1][..i] == particles[..i];
        if p.life > 0.0 {
          kept := kept + [p];
        }
        i := i + 1;
      }
      assert particles[..i] == particles;
      SurvivorsLive(particles);
      particles := kept;
    }

    /** The `forEach` pass of a frame: fresh position, size and colour buffers filled from the pool. */
    method FillBuffers() returns (positions: array<real>, sizes: array<real>, colors: array<real>)
      requires Valid()
      ensures fresh(positions) && fresh(sizes) && fresh(colors)
      ensures positions[..] == PositionBuffer(particles)
      ensures sizes[..] == SizeBuffer(particles)
      ensures colors[..] == ColorBuffer(particles)
    {
      var n := |particles|;
      positions := new real[3 * n];
      sizes := new real[n];
      colors := new real[3 * n];
      var i := 0;
      while i < n
        invariant 0 <= i <= n
        invariant positions[..3 * i] == PositionBuffer(particles[..i])
        invariant sizes[..i] == SizeBuffer(particles[..i])
        invariant colors[..3 * i] == ColorBuffer(particles[..i])
      {
        WritePosition(positions, particles, i);
        WriteSize(sizes, particles, i);
        WriteColor(colors, particles, i);
        i := i + 1;
      }
      assert particles[..n] == particles;
      assert positions[..] == positions[..3 * n];
      assert sizes[..] == sizes[..n];
      assert colors[..] == colors[..3 * n];
    }

    /**
     * One `useFrame` callback. Without a mounted points object it does
     * nothing; otherwise it steps the pool and returns the buffers drawn.
     */
    method Frame(mounted: bool) returns (geometry: Option<Geometry>)
      requires Valid()
      modifies this
      ensures Valid()
      ensures mousePos == old(mousePos)
      ensures !mounted ==> geometry == None && particles == old(particles)
      ensures mounted ==> particles == Survivors(old(particles)) && geometry.Some?
      ensures mounted ==> fresh(geometry.value.positions) && fresh(geometry.value.sizes) && fresh(geometry.value.colors)
      ensures mounted ==> && geometry.value.positions[..] == PositionBuffer(particles)
                          && geometry.value.sizes[..] == SizeBuffer(particles)
                          && geometry.value.colors[..] == ColorBuffer(particles)
    {
      if !mounted {
        return None;
      }
      Step();
      var positions, sizes, colors := FillBuffers();
      geometry := Some(Geometry(positions, sizes, colors));
    }
  }
}
