/**
 * The tree of the XDM object data element's editor. Each node of the form
 * state becomes a tree node; an object or array node is given its children
 * by a population helper, which asks `getTreeNode` for one child per
 * property or item. What `getTreeNode` builds is not part of this model:
 * it is a parameter, a function from the request to the child.
 */
module XdmTree {
  import opened Wrappers
  import opened Js

  /** A node of the tree; the population helpers set its children and nothing else. */
  class TreeNode<C> {
    var children: Option<seq<C>>
  }

  /** What a population helper passes to `getTreeNode` for one child. */
  datatype ChildRequest<N> = ChildRequest(
    formStateNode: Value,
    displayName: string,
    isAncestorUsingWholePopulationStrategy: bool,
    notifyParentOfDataPopulation: N,
    notifyParentOfTouched: N,
    errors: Option<Value>,
    touched: Option<Value>)

  /** `state && state.k ? state.k : undefined`: the part of the errors or touched state a node keeps for its children. */
  function Scoped(state: Option<Value>, k: string): (r: Option<Value>)
    ensures Truthy(Prop(state, k)) ==> r == Prop(state, k)
    ensures !Truthy(Prop(state, k)) ==> r == None
  {
    if Truthy(Prop(state, k)) then Prop(state, k) else None
  }
}
