/**
 * Population of an array node: one child per item, labelled `Item 1`,
 * `Item 2`, and so on. An array populated as a whole, or below a node
 * populated as a whole, shows no children.
 */
module XdmArray {
  import opened Wrappers
  import opened Js
  import opened XdmTree

  /** `formStateNode.items`. */
  function Items(formStateNode: Value): Option<Value>
  {
    Prop(Some(formStateNode), "items")
  }

  /** Whether the items are shown as children: there are some, and neither this node nor an ancestor is populated as a whole. */
  predicate ShowsItems(formStateNode: Value, isAncestorUsingWholePopulationStrategy: bool, isUsingWholePopulationStrategy: bool)
  {
    && Truthy(Items(formStateNode))
    && !LengthFalsy(Items(formStateNode).value)
    && !isUsingWholePopulationStrategy
    && !isAncestorUsingWholePopulationStrategy
  }

  /** Items that are shown are mapped over, so they must be an array: any other value with a length has no `map`. */
  predicate MappableItems(formStateNode: Value, isAncestorUsingWholePopulationStrategy: bool, isUsingWholePopulationStrategy: bool)
  {
    ShowsItems(formStateNode, isAncestorUsingWholePopulationStrategy, isUsingWholePopulationStrategy) ==>
      Items(formStateNode).value.List?
  }

  /** The label of the item at `index`, counted from one. */
  function ItemLabel(index: nat): (r: string)
    ensures |r| > 5 && r[..5] == "Item "
    ensures r[5..] == NatToString(index + 1, 10)
  {
    "Item " + NatToString(index + 1, 10)
  }

  /** The request for the child of the item at `index`. */
  function ItemRequest<N>(
    item: Value, index: nat,
    isAncestorUsingWholePopulationStrategy: bool, isUsingWholePopulationStrategy: bool,
    confirmDataPopulatedAtCurrentOrDescendantNode: N, confirmTouchedAtCurrentOrDescendantNode: N,
    errors: Option<Value>, touched: Option<Value>): (r: ChildRequest<N>)
    ensures r.formStateNode == item && r.displayName == ItemLabel(index)
    ensures r.isAncestorUsingWholePopulationStrategy <==> isAncestorUsingWholePopulationStrategy || isUsingWholePopulationStrategy
    ensures r.notifyParentOfDataPopulation == confirmDataPopulatedAtCurrentOrDescendantNode
    ensures r.notifyParentOfTouched == confirmTouchedAtCurrentOrDescendantNode
  {
    ChildRequest(
      item,
      ItemLabel(index),
      isAncestorUsingWholePopulationStrategy || isUsingWholePopulationStrategy,
      confirmDataPopulatedAtCurrentOrDescendantNode,
      confirmTouchedAtCurrentOrDescendantNode,
      Index(Scoped(errors, "items"), index),
      Index(Scoped(touched, "items"), index))
  }

  /**
   * Gives the tree node one child per item, in item order, when the items
   * are shown, and leaves it as it was otherwise. Each child is asked for
   * with its item, its label, the ancestor flag, the parent's two
   * notification callbacks, and the item's own errors and touched state.
   */
  method PopulateTreeNode<C, N>(
    treeNode: TreeNode<C>, formStateNode: Value,
    isAncestorUsingWholePopulationStrategy: bool, isUsingWholePopulationStrategy: bool,
    confirmDataPopulatedAtCurrentOrDescendantNode: N, confirmTouchedAtCurrentOrDescendantNode: N,
    errors: Option<Value>, touched: Option<Value>,
    getTreeNode: ChildRequest<N> -> C)
    requires MappableItems(formStateNode, isAncestorUsingWholePopulationStrategy, isUsingWholePopulationStrategy)
    modifies treeNode`children
    ensures !ShowsItems(formStateNode, isAncestorUsingWholePopulationStrategy, isUsingWholePopulationStrategy) ==>
              treeNode.children == old(treeNode.children)
    ensures ShowsItems(formStateNode, isAncestorUsingWholePopulationStrategy, isUsingWholePopulationStrategy) ==>
              var items := Items(formStateNode).value.items;
              && treeNode.children.Some?
              && |treeNode.children.value| == |items| > 0
              && forall i :: 0 <= i < |items| ==>
                   treeNode.children.value[i] == getTreeNode(ItemRequest(
                     items[i], i,
                     isAncestorUsingWholePopulationStrategy, isUsingWholePopulationStrategy,
                     confirmDataPopulatedAtCurrentOrDescendantNode, confirmTouchedAtCurrentOrDescendantNode,
                     errors, touched))
  {
    var items := Items(formStateNode);
    if Truthy(items) && !LengthFalsy(items.value) && !isUsingWholePopulationStrategy && !isAncestorUsingWholePopulationStrategy {
      var xs := items.value.items;
      treeNode.children := Some(seq(|xs|, i requires 0 <= i < |xs| =>
        getTreeNode(ItemRequest(
          xs[i], i,
          isAncestorUsingWholePopulationStrategy, isUsingWholePopulationStrategy,
          confirmDataPopulatedAtCurrentOrDescendantNode, confirmTouchedAtCurrentOrDescendantNode,
          errors, touched))));
    }
  }

  /** No two items share a label. */
  lemma ItemLabelsDistinct(i: nat, j: nat)
    requires i != j
    ensures ItemLabel(i) != ItemLabel(j)
  {
    if ItemLabel(i) == ItemLabel(j) {
      NatToStringInjective(i + 1, j + 1, 10);
    }
  }

  /** The first item is `Item 1` and the tenth `Item 10`. */
  lemma FirstAndTenthLabels()
    ensures ItemLabel(0) == "Item 1"
    ensures ItemLabel(9) == "Item 10"
  {
  }

  /** Shown children never have an ancestor populated as a whole: the two flags are false wherever children are made. */
  lemma ShownChildrenNotWhole<N>(
    formStateNode: Value, index: nat,
    isAncestorUsingWholePopulationStrategy: bool, isUsingWholePopulationStrategy: bool,
    confirmData: N, confirmTouched: N, errors: Option<Value>, touched: Option<Value>)
    requires ShowsItems(formStateNode, isAncestorUsingWholePopulationStrategy, isUsingWholePopulationStrategy)
    requires MappableItems(formStateNode, isAncestorUsingWholePopulationStrategy, isUsingWholePopulationStrategy)
    requires index < |Items(formStateNode).value.items|
    ensures !ItemRequest(Items(formStateNode).value.items[index], index,
               isAncestorUsingWholePopulationStrategy, isUsingWholePopulationStrategy,
               confirmData, confirmTouched, errors, touched).isAncestorUsingWholePopulationStrategy
  {
  }

  /**
   * A child's errors are the item's entry in the array `errors.items`
   * (undefined past its end), and undefined when `errors` has no items;
   * touched state is scoped the same way.
   */
  lemma ItemErrorsScoped<N>(item: Value, index: nat, flag: bool, confirmData: N, confirmTouched: N, errors: Option<Value>, touched: Option<Value>)
    ensures var r := ItemRequest(item, index, flag, false, confirmData, confirmTouched, errors, touched);
            && (Prop(errors, "items").Some? && Prop(errors, "items").value.List? ==>
                  var xs := Prop(errors, "items").value.items;
                  r.errors == if index < |xs| then Some(xs[index]) else None)
            && (!Truthy(Prop(errors, "items")) ==> r.errors == None)
            && (!Truthy(Prop(touched, "items")) ==> r.touched == None)
  {
  }
}
