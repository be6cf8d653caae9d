/** Controller handling of examples/psyq/lib/input.c: the pad bitmask is sampled once
    per frame; a rising edge of the Triangle button switches the animation track, and
    held D-pad and shoulder buttons move the camera by fixed steps. PadRead is an
    input parameter here. */
module Input {
  import opened Types
  import opened Animation

  /** A pad bitmask as PadRead returns it (`u_long`). */
  type Pad = bv32

  /** The libetc pad bits (libetc.h is not part of this model; these are its values). */
  const PADL2: Pad := 1
  const PADR2: Pad := 2
  const PADL1: Pad := 4
  const PADR1: Pad := 8
  const PADRup: Pad := 16
  const PADRright: Pad := 32
  const PADRdown: Pad := 64
  const PADRleft: Pad := 128
  const PADselect: Pad := 256
  const PADstart: Pad := 2048
  const PADLup: Pad := 4096
  const PADLright: Pad := 8192
  const PADLdown: Pad := 16384
  const PADLleft: Pad := 32768

  /** `pad & bit` taken as a C truth value. */
  predicate Pressed(pad: Pad, bit: Pad) {
    pad & bit != 0
  }

  /** `(now & bit) && !(before & bit)`: the button went down since the last sample. */
  predicate Rising(now: Pad, before: Pad, bit: Pad) {
    Pressed(now, bit) && !Pressed(before, bit)
  }

  /** The net change of two `if (pad & b) x += d` / `if (pad & b) x -= d` statements. */
  function Step(pad: Pad, plus: Pad, minus: Pad, d: int): int {
    (if Pressed(pad, plus) then d else 0) - (if Pressed(pad, minus) then d else 0)
  }

  /** A pair of opposite buttons moves by `d`, by `-d`, or not at all; it does not move
      when both or neither are held. */
  lemma StepCases(pad: Pad, plus: Pad, minus: Pad, d: int)
    requires d != 0
    ensures Step(pad, plus, minus, d) == d <==> Pressed(pad, plus) && !Pressed(pad, minus)
    ensures Step(pad, plus, minus, d) == -d <==> !Pressed(pad, plus) && Pressed(pad, minus)
    ensures Step(pad, plus, minus, d) == 0 <==> (Pressed(pad, plus) <==> Pressed(pad, minus))
  {
  }

  /** The camera rotation after one handleInput: Left/Right turn `vy` by +32/-32, Up/Down
      tilt `vx` by +32/-32, each stored back into a 16-bit `short`; `vz` is kept. */
  function CameraTurn(r: Svec, pad: Pad): Svec {
    Svec(Wrap16(r.vx + Step(pad, PADLup, PADLdown, 32)), Wrap16(r.vy + Step(pad, PADLleft, PADLright, 32)), r.vz)
  }

  /** The camera position after one handleInput: L1/R1 move `vz` by +50/-50, L2/R2 move
      `vy` by -50/+50, unclamped; `vx` is kept. */
  function CameraMove(p: Vec, pad: Pad): Vec {
    Vec(p.vx, p.vy + Step(pad, PADR2, PADL2, 50), p.vz + Step(pad, PADL1, PADR1, 50))
  }

  /** Holding both buttons of a pair, or neither, leaves that component unchanged;
      `camera_rotation.vz` and `camera_position.vx` never change. */
  lemma CameraOppositesCancel(r: Svec, p: Vec, pad: Pad)
    ensures CameraTurn(r, pad).vz == r.vz && CameraMove(p, pad).vx == p.vx
    ensures (Pressed(pad, PADLleft) <==> Pressed(pad, PADLright)) ==> CameraTurn(r, pad).vy == r.vy
    ensures (Pressed(pad, PADLup) <==> Pressed(pad, PADLdown)) ==> CameraTurn(r, pad).vx == r.vx
    ensures (Pressed(pad, PADL1) <==> Pressed(pad, PADR1)) ==> CameraMove(p, pad).vz == p.vz
    ensures (Pressed(pad, PADL2) <==> Pressed(pad, PADR2)) ==> CameraMove(p, pad).vy == p.vy
  {
  }

  /** The number of track switches a run of pad samples causes, starting after `prev`. */
  function Toggles(prev: Pad, pads: seq<Pad>): nat
    decreases |pads|
  {
    if pads == [] then 0
    else (if Rising(pads[0], prev, PADRup) then 1 else 0) + Toggles(pads[0], pads[1..])
  }

  /** Holding the Triangle button across any number of frames switches the track once:
      only the first sample can be a rising edge. */
  lemma {:induction false} HeldTogglesOnce(prev: Pad, p: Pad, pads: seq<Pad>)
    requires pads != [] && forall j :: 0 <= j < |pads| ==> pads[j] == p
    ensures Toggles(prev, pads) == (if Rising(p, prev, PADRup) then 1 else 0)
    decreases |pads|
  {
    if |pads| > 1 {
      HeldTogglesOnce(p, p, pads[1..]);
    }
  }

  /** The globals `padState` and `padStateOld`. */
  class Controller {
    var padState: Pad
    var padStateOld: Pad

    /** The globals' static initialisers. */
    constructor ()
      ensures padState == 0 && padStateOld == 0
    {
      padState := 0;
      padStateOld := 0;
    }

    /** initController (input.c:9-13) without `PadInit`. */
    method Init()
      modifies this
      ensures padState == 0 && padStateOld == 0
    {
      padState := 0;
      padStateOld := 0;
    }

    /** The first two lines of handleInput: the previous sample moves to `padStateOld`
        before the new one is stored. */
    method Sample(pad: Pad)
      modifies this
      ensures padStateOld == old(padState) && padState == pad
    {
      padStateOld := padState;
      padState := pad;
    }
  }

  /** A rotation (SVECTOR) and a translation (VECTOR) updated in place by the input
      handlers: `camera_rotation`/`camera_position` here, `rotation`/`translation` in
      examples/psyq/main.c. */
  class Placement {
    var rotation: Svec
    var position: Vec

    constructor (rotation: Svec, position: Vec)
      ensures this.rotation == rotation && this.position == position
    {
      this.rotation := rotation;
      this.position := position;
    }
  }

  /** The track switch shared by both handleInput variants: on a rising edge of the
      Triangle button, switch the track and restart it. */
  method SwitchOnEdge(ctl: Controller, player: Player)
    modifies player
    ensures Rising(ctl.padState, ctl.padStateOld, PADRup) ==>
              player.anim == Not(old(player.anim)) && player.frame == 0 && player.timer == 0
    ensures !Rising(ctl.padState, ctl.padStateOld, PADRup) ==>
              player.anim == old(player.anim) && player.frame == old(player.frame) && player.timer == old(player.timer)
    ensures old(player.Valid()) ==> player.Valid()
  {
    if Pressed(ctl.padState, PADRup) && !Pressed(ctl.padStateOld, PADRup) {
      player.Switch();
    }
  }

  /** `if (plus) x += d; if (minus) x -= d;` on a `short` field: the same as one wrapped
      update by the net step. */
  method NudgeShort(x: short, plus: bool, minus: bool, d: int) returns (r: short)
    ensures r == Wrap16(x + (if plus then d else 0) - (if minus then d else 0))
  {
    r := x;
    if plus {
      r := Wrap16(r + d);
    }
    if minus {
      r := Wrap16(r - d);
    }
    WrapAdd(x + (if plus then d else 0), -d);
  }

  /** The D-pad half of handleInput (input.c:26-40). */
  method TurnCamera(cam: Placement, pad: Pad)
    modifies cam
    ensures cam.rotation == CameraTurn(old(cam.rotation), pad) && cam.position == old(cam.position)
  {
    var vy := NudgeShort(cam.rotation.vy, Pressed(pad, PADLleft), Pressed(pad, PADLright), 32);
    cam.rotation := cam.rotation.(vy := vy);
    var vx := NudgeShort(cam.rotation.vx, Pressed(pad, PADLup), Pressed(pad, PADLdown), 32);
    cam.rotation := cam.rotation.(vx := vx);
  }

  /** The shoulder-button half of handleInput (input.c:42-56). */
  method MoveCamera(cam: Placement, pad: Pad)
    modifies cam
    ensures cam.position == CameraMove(old(cam.position), pad) && cam.rotation == old(cam.rotation)
  {
    if Pressed(pad, PADL1) {
      cam.position := cam.position.(vz := cam.position.vz + 50);
    }
    if Pressed(pad, PADR1) {
      cam.position := cam.position.(vz := cam.position.vz - 50);
    }
    if Pressed(pad, PADL2) {
      cam.position := cam.position.(vy := cam.position.vy - 50);
    }
    if Pressed(pad, PADR2) {
      cam.position := cam.position.(vy := cam.position.vy + 50);
    }
  }

  /** handleInput (input.c:15-57). */
  method HandleInput(ctl: Controller, player: Player, cam: Placement, pad: Pad)
    modifies ctl, player, cam
    ensures ctl.padStateOld == old(ctl.padState) && ctl.padState == pad
    ensures Rising(pad, old(ctl.padState), PADRup) ==>
              player.anim == Not(old(player.anim)) && player.frame == 0 && player.timer == 0
    ensures !Rising(pad, old(ctl.padState), PADRup) ==>
              player.anim == old(player.anim) && player.frame == old(player.frame) && player.timer == old(player.timer)
    ensures old(player.Valid()) ==> player.Valid()
    ensures cam.rotation == CameraTurn(old(cam.rotation), pad)
    ensures cam.position == CameraMove(old(cam.position), pad)
  {
    ctl.Sample(pad);
    SwitchOnEdge(ctl, player);
    TurnCamera(cam, pad);
    MoveCamera(cam, pad);
  }
}
