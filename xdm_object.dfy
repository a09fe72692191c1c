/**
 * Population of an object node: one child per property, in the sorted
 * order of the property names, each labelled with its name. Unlike an
 * array, an object populated as a whole still shows its properties; the
 * flag is only handed down to them.
 */
module XdmObject {
  import opened Wrappers
  import opened Js
  import opened XdmTree

  /** `formStateNode.properties`. */
  function Properties(formStateNode: Value): Option<Value>
  {
    Prop(Some(formStateNode), "properties")
  }

  /**
   * `Object.keys(properties)` for the values form state holds there: the
   * names of an object's properties, and none for a number, a boolean or an
   * empty array.
   */
  function PropertyNames(properties: Value): (r: set<string>)
    ensures properties.Obj? ==> r == properties.fields.Keys
    ensures !properties.Obj? ==> r == {}
  {
    if properties.Obj? then properties.fields.Keys else {}
  }

  /** The properties are an object, or a value without own enumerable keys (a string or non-empty array has index keys, which are not part of this model). */
  predicate KeyedProperties(formStateNode: Value)
  {
    Truthy(Properties(formStateNode)) ==>
      match Properties(formStateNode).value
      case Obj(_) => true
      case Num(_) => true
      case Bool(_) => true
      case List(xs) => xs == []
      case Str(_) => false
  }

  /** Whether the properties are shown as children: there is at least one. */
  predicate ShowsProperties(formStateNode: Value)
  {
    Truthy(Properties(formStateNode)) && PropertyNames(Properties(formStateNode).value) != {}
  }

  /** The request for the child of the property `name`. */
  function PropertyRequest<N>(
    properties: Object, name: string,
    isAncestorUsingWholePopulationStrategy: bool, isUsingWholePopulationStrategy: bool,
    confirmDataPopulatedAtCurrentOrDescendantNode: N, confirmTouchedAtCurrentOrDescendantNode: N,
    errors: Option<Value>, touched: Option<Value>): (r: ChildRequest<N>)
    requires name in properties
    ensures r.formStateNode == properties[name] && r.displayName == name
    ensures r.isAncestorUsingWholePopulationStrategy <==> isAncestorUsingWholePopulationStrategy || isUsingWholePopulationStrategy
    ensures r.notifyParentOfDataPopulation == confirmDataPopulatedAtCurrentOrDescendantNode
    ensures r.notifyParentOfTouched == confirmTouchedAtCurrentOrDescendantNode
  {
    ChildRequest(
      properties[name],
      name,
      isAncestorUsingWholePopulationStrategy || isUsingWholePopulationStrategy,
      confirmDataPopulatedAtCurrentOrDescendantNode,
      confirmTouchedAtCurrentOrDescendantNode,
      Prop(Scoped(errors, "properties"), name),
      Prop(Scoped(touched, "properties"), name))
  }

  /**
   * Gives the tree node one child per property when there are any, and
   * leaves it as it was otherwise. The children follow the sorted property
   * names (each name once, ascending); each is asked for with its
   * property's form state, its name as label, the ancestor flag, the
   * parent's two callbacks, and the property's errors and touched state.
   */
  method PopulateTreeNode<C, N>(
    treeNode: TreeNode<C>, formStateNode: Value,
    isAncestorUsingWholePopulationStrategy: bool, isUsingWholePopulationStrategy: bool,
    confirmDataPopulatedAtCurrentOrDescendantNode: N, confirmTouchedAtCurrentOrDescendantNode: N,
    errors: Option<Value>, touched: Option<Value>,
    getTreeNode: ChildRequest<N> -> C)
    requires KeyedProperties(formStateNode)
    modifies treeNode`children
    ensures !ShowsProperties(formStateNode) ==> treeNode.children == old(treeNode.children)
    ensures ShowsProperties(formStateNode) ==>
              var properties := Properties(formStateNode).value.fields;
              var names := SortedKeys(properties.Keys);
              && treeNode.children.Some?
              && |treeNode.children.value| == |names| == |properties|
              && forall i :: 0 <= i < |names| ==>
                   treeNode.children.value[i] == getTreeNode(PropertyRequest(
                     properties, names[i],
                     isAncestorUsingWholePopulationStrategy, isUsingWholePopulationStrategy,
                     confirmDataPopulatedAtCurrentOrDescendantNode, confirmTouchedAtCurrentOrDescendantNode,
                     errors, touched))
  {
    var properties := Properties(formStateNode);
    if Truthy(properties) {
      var propertyNames := PropertyNames(properties.value);
      if |propertyNames| > 0 {
        var fields := properties.value.fields;
        var names := SortedKeys(propertyNames);
        treeNode.children := Some(seq(|names|, i requires 0 <= i < |names| =>
          getTreeNode(PropertyRequest(
            fields, names[i],
            isAncestorUsingWholePopulationStrategy, isUsingWholePopulationStrategy,
            confirmDataPopulatedAtCurrentOrDescendantNode, confirmTouchedAtCurrentOrDescendantNode,
            errors, touched))));
      }
    }
  }

  /** Each property has one child, at its place in the sorted order, and no child is there twice. */
  lemma ChildPerProperty(properties: Object, name: string)
    requires name in properties
    ensures exists i :: 0 <= i < |SortedKeys(properties.Keys)| && SortedKeys(properties.Keys)[i] == name
    ensures forall i, j :: 0 <= i < j < |SortedKeys(properties.Keys)| ==> SortedKeys(properties.Keys)[i] != SortedKeys(properties.Keys)[j]
  {
    var names := SortedKeys(properties.Keys);
    assert name in names;
    forall i, j | 0 <= i < j < |names| ensures names[i] != names[j] {
      LessIrreflexive(names[i]);
    }
  }

  /** Properties are shown whatever the population strategy, and each child is told whether it or an ancestor is populated as a whole. */
  lemma WholePopulationHandedDown<N>(
    properties: Object, name: string, isAncestorUsingWholePopulationStrategy: bool, isUsingWholePopulationStrategy: bool,
    confirmData: N, confirmTouched: N, errors: Option<Value>, touched: Option<Value>)
    requires name in properties
    ensures PropertyRequest(properties, name, isAncestorUsingWholePopulationStrategy, isUsingWholePopulationStrategy,
              confirmData, confirmTouched, errors, touched).isAncestorUsingWholePopulationStrategy
            <==> isAncestorUsingWholePopulationStrategy || isUsingWholePopulationStrategy
  {
  }

  /**
   * A child's errors are the entry under its name in `errors.properties`,
   * and undefined when `errors` has no properties; the same for touched.
   */
  lemma PropertyErrorsScoped<N>(properties: Object, name: string, confirmData: N, confirmTouched: N, errors: Option<Value>, touched: Option<Value>)
    requires name in properties
    ensures var r := PropertyRequest(properties, name, false, false, confirmData, confirmTouched, errors, touched);
            && (Prop(errors, "properties").Some? && Prop(errors, "properties").value.Obj? ==>
                  r.errors == Get(Prop(errors, "properties").value.fields, name))
            && (!Truthy(Prop(errors, "properties")) ==> r.errors == None)
            && (Prop(touched, "properties").Some? && Prop(touched, "properties").value.Obj? ==>
                  r.touched == Get(Prop(touched, "properties").value.fields, name))
            && (!Truthy(Prop(touched, "properties")) ==> r.touched == None)
  {
  }
}
