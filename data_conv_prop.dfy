// The data-conversion mapping records: VsDataConvProp, a node of the nested
// mapping tree, and MappingGrid, a row of its flat source layout.  The
// shared library (libs/vo/vs/VsDataConvProp.ts) and the adapter's DTO
// (apps/vs-adapter/src/port/dto/VsDataConvProp.ts) declare the same two
// classes with the same constructors and addChild, so they are modelled
// once.

module DataConvProps {
  import opened Wrappers
  import opened FieldTypes
  import opened TreeNodes

  /** A row of the flat layout; only truthy constructor arguments are set. */
  class MappingGrid {
    var fieldName: Option<string>
    var fieldType: Option<FieldType>
    var desc: Option<string>

    constructor (fieldName: Option<string>, fieldType: Option<FieldType>, desc: Option<string>)
      ensures this.fieldName == IfTruthy(fieldName)
      ensures this.fieldType == fieldType
      ensures this.desc == IfTruthy(desc)
    {
      this.fieldName := IfTruthy(fieldName);
      this.fieldType := fieldType;
      this.desc := IfTruthy(desc);
    }
  }

  /** A node of the mapping tree. */
  class ConvProp {
    var fieldName: Option<string>
    var fieldType: Option<FieldType>
    var desc: Option<string>
    var children: Option<seq<ConvProp>>
    var mappingGrids: Option<seq<MappingGrid>>
    var id: Option<string>
    var pid: Option<string>
    var shouldConvert: Option<bool>

    /** Only truthy arguments are stored; shouldConvert starts false. */
    constructor (fieldName: Option<string>, fieldType: Option<FieldType>)
      ensures this.fieldName == IfTruthy(fieldName)
      ensures this.fieldType == fieldType
      ensures shouldConvert == Some(false)
      ensures desc == None && children == None && mappingGrids == None && id == None && pid == None
    {
      this.fieldName := IfTruthy(fieldName);
      this.fieldType := fieldType;
      shouldConvert := Some(false);
      desc := None;
      children := None;
      mappingGrids := None;
      id := None;
      pid := None;
    }

    /** addChild: a null child is refused; otherwise the list is created on
        first use and the child goes to its end, so the earlier children stay
        where they were and the list grows by one. */
    method AddChild(child: ConvProp?) returns (o: Outcome)
      modifies this
      ensures child == null ==> o == Throw(Failure(Generic, NullChild, [])) && children == old(children)
      ensures child != null ==> (o == Pass && children == Some(old(children).GetOr([]) + [child]))
      ensures child != null ==> |children.value| == |old(children).GetOr([])| + 1
      ensures fieldName == old(fieldName) && fieldType == old(fieldType) && desc == old(desc)
      ensures mappingGrids == old(mappingGrids) && id == old(id) && pid == old(pid)
      ensures shouldConvert == old(shouldConvert)
    {
      if child == null {
        return Throw(Failure(Generic, NullChild, []));
      }
      if children.None? {
        children := Some([]);
      }
      children := Some(children.value + [child]);
      o := Pass;
    }
  }
}
