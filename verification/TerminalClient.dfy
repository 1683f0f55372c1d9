/** The client as an object (RemoteTerminalProtocolClient.ts): the part that shows the terminal. */
module TerminalClient {
  import opened Basics
  import opened Grids
  import opened TerminalState

  class ProtocolClient {
    var open: bool
    var ready: bool
    var mode: Mode
    var epoch: Option<string>
    var appliedOutputOffset: nat
    var grid: Option<Grid>
    var exited: bool
    var up: seq<Up>
    ghost var bytes: seq<Byte>
    ghost var resizes: seq<Resize>
    ghost var display: seq<Event>

    ghost function State(): Client
      reads this
    {
      Client(open, ready, mode, epoch, appliedOutputOffset, grid, bytes, resizes, display, exited, up)
    }

    constructor (epoch: Option<string>, resume: nat)
      ensures State() == NewClient(epoch, resume)
    {
      this.epoch, appliedOutputOffset := epoch, resume;
      open, ready, mode, grid, exited, up := true, false, Vt, None, false, [];
      bytes, resizes, display := [], [], [];
    }

    method Receive(m: Down)
      modifies this
      ensures State() == old(State()).Receive(m)
    {
      if m.Failure? {
        open := false;
        return;
      }
      if m.Welcome? {
        ReceiveWelcome(m);
        return;
      }
      if !ready {
        open := false;
        return;
      }
      match m
      case Output(_, _) => ReceiveOutput(m);
      case ModeSwitch => mode := Semantic;
      case Keyframe(g) =>
        if ValidGrid(g) {
          grid := Some(g);
          mode := Semantic;
          up := up + [GridAck(g.revision)];
        } else {
          open := false;
        }
      case GridPatch(patch) => ReceivePatch(patch);
      case Resized(resize) => ReceiveResize(resize);
      case Exit(offset) =>
        if (mode == Vt && appliedOutputOffset != offset)
           || (mode == Semantic && (grid.None? || grid.value.covers < offset)) {
          open := false;
        } else {
          exited := true;
        }
    }

    method ReceiveWelcome(m: Down)
      requires m.Welcome?
      modifies this
      ensures State() == old(State()).Receive(m)
    {
      if ready {
        open := false;
        return;
      }
      if epoch.Some? && epoch.value != m.epoch {
        appliedOutputOffset := 0;
      }
      epoch := Some(m.epoch);
      mode := m.mode;
      up := up + [ResizeApplied(m.resizeRevision)];
      ready := true;
    }

    method ReceiveOutput(m: Down)
      requires m.Output? && ready
      modifies this
      ensures State() == old(State()).Receive(m)
    {
      if mode != Vt {
        open := false;
        return;
      }
      var start := m.end - |m.data|;
      if m.end <= appliedOutputOffset {
        return;
      }
      if start != appliedOutputOffset {
        up := up + [Resync];
        return;
      }
      bytes := bytes + m.data;
      display := display + ShownAll(m.data);
      appliedOutputOffset := m.end;
      up := up + [OutputAck(appliedOutputOffset)];
    }

    method ReceivePatch(patch: Patch)
      requires ready
      modifies this
      ensures State() == old(State()).Receive(GridPatch(patch))
    {
      if grid.None? || grid.value.revision != patch.baseRevision {
        up := up + [Resync];
        return;
      }
      grid := ApplyGridPatch(grid.value, patch);
      if ValidGrid(grid.value) {
        up := up + [GridAck(grid.value.revision)];
      } else {
        open := false;
      }
    }

    method ReceiveResize(resize: Resize)
      requires ready
      modifies this
      ensures State() == old(State()).Receive(Resized(resize))
    {
      if !ValidDimensions(resize.cols, resize.rows) || (mode == Vt && appliedOutputOffset != resize.barrier) {
        open := false;
        return;
      }
      resizes := resizes + [resize];
      display := display + [Reshaped(resize)];
      up := up + [ResizeApplied(resize.revision)];
    }
  }
}
