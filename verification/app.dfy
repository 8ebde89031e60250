/**
 A node of the distributed demo: its role, its copy of the shared state and
 its change-detection consumer, with the state effects of onCreate,
 onAnimate and onKeyDown. The transport is reduced to the wholesale
 replacement of a secondary's state by a delivered snapshot.
 */
module App {
  import opened Generator
  import opened SharedState
  import opened Authority
  import opened ChangeDetection

  /** Fixed for the whole session. */
  datatype Role = Primary | Secondary

  datatype Node = Node(role: Role, state: TextureState, consumer: Consumer)

  /**
   onCreate, state part: the primary initialises and generates the first
   texture; a secondary keeps the state it holds. `blank` is the content of
   the freshly created local texture.
   */
  function OnCreate(cfg: Config, role: Role, s: TextureState, blank: seq<byte>): (n: Node)
    ensures n.role == role && n.consumer == Start(blank)
    ensures role == Primary ==> n.state.time == 0.0 && n.state.angle == 0.0 && n.state.frameCounter == 0
    ensures role == Primary ==> n.state.textureNeedsUpdate && WellSized(cfg, n.state)
    ensures role == Primary ==> n.state.textureData == Texture(cfg.dims, cfg.shader, Inputs(0.0, 0.0, 0))
    ensures role == Secondary ==> n.state == s
  {
    Node(role, if role == Primary then PrimaryInit(cfg, s) else s, Start(blank))
  }

  /**
   onAnimate: the primary advances the state; then every node compares the
   counter with the last one applied and submits the texture when it differs.
   */
  function OnAnimate(cfg: Config, n: Node, dt: real): (r: Node)
    ensures r.role == n.role
    ensures n.role == Secondary ==> r.state == n.state
    ensures n.role == Primary ==> r.state.frameCounter == n.state.frameCounter + 1 && r.state.time == n.state.time + dt
    ensures n.role == Primary ==> r.state == Advance(cfg, n.state, dt).state
    ensures r.consumer.last == r.state.frameCounter
    ensures r.state.frameCounter != n.consumer.last ==>
              r.consumer.shown == r.state.textureData && r.consumer.submits == n.consumer.submits + 1
    ensures r.state.frameCounter == n.consumer.last ==> r.consumer == n.consumer
  {
    var s := if n.role == Primary then Advance(cfg, n.state, dt).state else n.state;
    Node(n.role, s, Observe(n.consumer, s))
  }

  /**
   onKeyDown: on the primary '2' resets clock, angle and counter and ' '
   forces a regeneration; every other key, and every key on a secondary,
   changes nothing.
   */
  function OnKeyDown(cfg: Config, n: Node, key: char): (r: Node)
    ensures r.role == n.role && r.consumer == n.consumer
    ensures n.role == Secondary || (key != '2' && key != ' ') ==> r == n
    ensures n.role == Primary && key == '2' ==>
              r.state.time == 0.0 && r.state.angle == 0.0 && r.state.frameCounter == 0 &&
              r.state.textureData == n.state.textureData &&
              r.state.textureNeedsUpdate == n.state.textureNeedsUpdate
    ensures n.role == Primary && key == ' ' ==>
              r.state.time == n.state.time && r.state.angle == n.state.angle &&
              r.state.frameCounter == n.state.frameCounter && r.state.textureNeedsUpdate &&
              r.state.textureData == Texture(cfg.dims, cfg.shader, InputsOf(n.state))
  {
    if n.role != Primary then n
    else if key == '2' then n.(state := Reset(n.state))
    else if key == ' ' then n.(state := Regenerate(cfg, n.state))
    else n
  }

  /** What holds of the primary's state from onCreate on. */
  predicate PrimaryInvariant(cfg: Config, n: Node) {
    && n.role == Primary
    && n.state.frameCounter >= 0
    && n.state.textureNeedsUpdate
    && WellSized(cfg, n.state)
  }

  /** Initialisation sets the update flag, which nothing on the primary ever clears again. */
  lemma InitEstablishesPrimaryInvariant(cfg: Config, s: TextureState, blank: seq<byte>)
    ensures PrimaryInvariant(cfg, OnCreate(cfg, Primary, s, blank))
  {
  }

  lemma AnimatePreservesPrimaryInvariant(cfg: Config, n: Node, dt: real)
    requires PrimaryInvariant(cfg, n)
    ensures PrimaryInvariant(cfg, OnAnimate(cfg, n, dt))
  {
  }

  lemma KeyPreservesPrimaryInvariant(cfg: Config, n: Node, key: char)
    requires PrimaryInvariant(cfg, n)
    ensures PrimaryInvariant(cfg, OnKeyDown(cfg, n, key))
  {
  }

  /** The node's local texture shows the bytes of its current state, and the counter is recorded. */
  predicate Synced(n: Node) {
    n.consumer.last == n.state.frameCounter && n.consumer.shown == n.state.textureData
  }

  /**
   On the primary, a frame that follows an animated frame shows the current
   texture, including one forced by ' ' in between: the counter always
   differs from the previous one.
   */
  lemma PrimaryFrameShowsOwnTexture(cfg: Config, n: Node, dt: real)
    requires n.role == Primary
    requires n.consumer.last == n.state.frameCounter
    ensures Synced(OnAnimate(cfg, n, dt))
    ensures OnAnimate(cfg, n, dt).consumer.submits == n.consumer.submits + 1
  {
  }

  /** The transport replaces a secondary's state wholesale with the latest snapshot. */
  function Deliver(n: Node, snapshot: TextureState): Node {
    n.(state := snapshot)
  }

  /** A secondary's frames, each preceded by the delivery of one snapshot, oldest first. */
  function SecondaryFrames(cfg: Config, n: Node, snapshots: seq<TextureState>, dt: real): Node
  {
    if snapshots == [] then n
    else OnAnimate(cfg, Deliver(SecondaryFrames(cfg, n, snapshots[..|snapshots| - 1], dt), snapshots[|snapshots| - 1]), dt)
  }

  /**
   A secondary never changes the states it receives: after its frames it
   holds the last snapshot, and its consumer has seen exactly the delivered
   sequence, one submit per counter change.
   */
  lemma {:induction false} SecondaryOnlyConsumes(cfg: Config, n: Node, snapshots: seq<TextureState>, dt: real)
    requires n.role == Secondary
    ensures SecondaryFrames(cfg, n, snapshots, dt).role == Secondary
    ensures snapshots != [] ==> SecondaryFrames(cfg, n, snapshots, dt).state == snapshots[|snapshots| - 1]
    ensures SecondaryFrames(cfg, n, snapshots, dt).consumer == ConsumeAll(n.consumer, snapshots)
    ensures SecondaryFrames(cfg, n, snapshots, dt).consumer.submits == n.consumer.submits + Changes(n.consumer.last, Counters(snapshots))
  {
    if snapshots != [] {
      SecondaryOnlyConsumes(cfg, n, snapshots[..|snapshots| - 1], dt);
    }
    ConsumeAllCountsChanges(n.consumer, snapshots);
  }

  /** A fresh secondary fed the counters [0, 0, 1, 1, 1, 2] submits three times. */
  lemma SecondaryDuplicateDeliveries(cfg: Config, s: TextureState, blank: seq<byte>, dt: real)
    ensures SecondaryFrames(cfg, OnCreate(cfg, Secondary, s, blank), WithCounters([0, 0, 1, 1, 1, 2]), dt).consumer.submits == 3
  {
    SecondaryOnlyConsumes(cfg, OnCreate(cfg, Secondary, s, blank), WithCounters([0, 0, 1, 1, 1, 2]), dt);
    DuplicatesSubmitOncePerCounter(blank);
  }

  /** One frame of 1/60 s from the zeroed primary state: clock 1/60, angle 1.5, counter 1, no regeneration. */
  lemma FirstFrameAtSixtyHertz(cfg: Config, n: Node)
    requires n.role == Primary
    requires n.state.time == 0.0 && n.state.angle == 0.0 && n.state.frameCounter == 0
    ensures OnAnimate(cfg, n, 1.0 / 60.0).state.time == 1.0 / 60.0
    ensures OnAnimate(cfg, n, 1.0 / 60.0).state.angle == 1.5
    ensures OnAnimate(cfg, n, 1.0 / 60.0).state.frameCounter == 1
    ensures OnAnimate(cfg, n, 1.0 / 60.0).state.textureData == n.state.textureData
  {
  }
}
