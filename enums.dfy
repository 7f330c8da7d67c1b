// The enumerations shared by the editor (vs-adapter) and the runtime (vs-run).
// Each enum member carries the string code the store holds for it.

module Enums {

  /** VsNodeTaskType: what a node does. */
  datatype TaskType =
    | CompositeEnd | CompositeNormal | Context | End | Http | Route | Convert | DataMapping
  {
    function Code(): string
    {
      match this
      case CompositeEnd => "COMPOSITE_END"
      case CompositeNormal => "COMPOSITE_NORMAL"
      case Context => "CONTEXT"
      case End => "END"
      case Http => "HTTP"
      case Route => "ROUTE"
      case Convert => "CONVERT"
      case DataMapping => "DATA_MAPPING"
    }
  }

  /** VsNodeViewType: whether a node is drawn as a container or a leaf.
      The ATOMIC code carries a trailing space in the source enum. */
  datatype ViewType = Composite | Atomic
  {
    function Code(): string
    {
      match this
      case Composite => "COMPOSITE"
      case Atomic => "ATOMIC "
    }
  }

  /** VIRTUAL_NODE_PORT_TYPE: the kind of a virtual boundary node. */
  datatype VirtualType = VirtualInput | VirtualOutput

  /** VsPortTypeEnum. */
  datatype PortType = InputPort | OutputPort
  {
    function Code(): string
    {
      match this
      case InputPort => "INPUT_PORT"
      case OutputPort => "OUTPUT_PORT"
    }
  }

  /** VsHttpMethodEnum: the two methods a flow may be published under. */
  datatype HttpMethod = Get | Post
  {
    function Code(): string
    {
      match this
      case Get => "GET"
      case Post => "POST"
    }
  }

  /** ProjectStateEnum. */
  datatype ProjectState = Offline | Online

  /** CompileStatusEnum. */
  datatype CompileStatus = Compiling | QueryFailed | CompileFailed | CompileSuccess

  /** Distinct members have distinct codes, so comparing codes compares members. */
  lemma CodesInjective()
    ensures forall a: TaskType, b: TaskType :: a.Code() == b.Code() ==> a == b
    ensures forall a: ViewType, b: ViewType :: a.Code() == b.Code() ==> a == b
    ensures forall a: PortType, b: PortType :: a.Code() == b.Code() ==> a == b
    ensures forall a: HttpMethod, b: HttpMethod :: a.Code() == b.Code() ==> a == b
  {
  }

  /** No view type code equals a task type code.  The port service compares a
      node's view type with the COMPOSITE_END task code, which therefore never
      holds. */
  lemma ViewCodeNeverTaskCode(v: ViewType, t: TaskType)
    ensures v.Code() != t.Code()
  {
  }
}
