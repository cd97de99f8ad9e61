/// The pass the extension runs over the graph's nodes each time a prompt is
/// built (web/grid_position.js, the `graphToPrompt` wrapper).
module PromptHook {
  import opened GridMapping
  import opened GridWidget

  /// Every object the pass may change: the nodes of the graph that are grid
  /// nodes, and their sliders. A `null` entry stands for any node that is
  /// not a grid node and so has no `naidRandomize`.
  ghost function Footprint(nodes: seq<GridNode?>): set<object> {
    set i, o | 0 <= i < |nodes| && nodes[i] != null && o in nodes[i].Repr() :: o
  }

  /// No two grid nodes share an object (each owns its sliders).
  ghost predicate Separate(nodes: seq<GridNode?>) {
    forall i, j ::
      (0 <= i < |nodes| && 0 <= j < |nodes| && i != j && nodes[i] != null && nodes[j] != null) ==>
        nodes[i].Repr() !! nodes[j].Repr()
  }

  /// Node `n`, whose state before the pass was `was`, has been dealt with:
  /// randomized to `roll` if its "Random" box was ticked, untouched if not.
  ghost predicate Settled(n: GridNode, roll: Cell, was: NodeState)
    reads n.Repr()
  {
    n.Valid() && n.randomEnabled == was.randomEnabled &&
    if was.randomEnabled then
      n.gx == roll.col && n.gy == roll.row && n.SlidersShowCell() &&
      (n.Synced() ==>
         n.State().x == AfterPush(was.x, n.xW, GridToValue(roll.col)) &&
         n.State().y == AfterPush(was.y, n.yW, GridToValue(roll.row))) &&
      (!n.Synced() ==> n.State().x == was.x && n.State().y == was.y)
    else
      n.State() == was
  }

  /// One step of the pass: a grid node with "Random" ticked is randomized
  /// to `roll`; any other node is left alone.
  method SettleNode(n: GridNode, roll: Cell)
    requires InGrid(roll) && n.Valid()
    modifies n.Repr()
    ensures Settled(n, roll, old(n.State()))
  {
    if n.randomEnabled {
      n.Randomize(roll.col, roll.row);
    }
  }

  /// Randomize, in graph order, every grid node whose "Random" box is
  /// ticked, using `rolls[i]` as node i's two draws; every other node is
  /// left exactly as it was.
  method RandomizeBeforePrompt(nodes: seq<GridNode?>, rolls: seq<Cell>)
    requires |rolls| == |nodes|
    requires forall i :: 0 <= i < |rolls| ==> InGrid(rolls[i])
    requires Separate(nodes)
    requires forall i :: 0 <= i < |nodes| && nodes[i] != null ==> nodes[i].Valid()
    modifies Footprint(nodes)
    ensures forall i :: 0 <= i < |nodes| && nodes[i] != null ==>
              Settled(nodes[i], rolls[i], old(nodes[i].State()))
  {
    var i := 0;
    while i < |nodes|
      invariant 0 <= i <= |nodes|
      invariant forall j :: 0 <= j < i && nodes[j] != null ==>
                  Settled(nodes[j], rolls[j], old(nodes[j].State()))
      invariant forall j :: i <= j < |nodes| && nodes[j] != null ==>
                  nodes[j].State() == old(nodes[j].State()) && nodes[j].Valid()
    {
      var n := nodes[i];
      if n != null {
        label BeforeCall:
        SettleNode(n, rolls[i]);
        // The other grid nodes own none of the objects the call changed.
        forall j | 0 <= j < |nodes| && j != i && nodes[j] != null
          ensures nodes[j].State() == old@BeforeCall(nodes[j].State())
          ensures nodes[j].Valid() == old@BeforeCall(nodes[j].Valid())
        {
          assert n.Repr() !! nodes[j].Repr();
        }
      }
      i := i + 1;
    }
  }
}
