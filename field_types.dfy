// The field types of a data-conversion mapping
// (libs/enum/src/VsDataConvertFieldTypeEnum.ts and
// libs/enum/src/data.mapping.enum.ts).  The two enums declare the same eleven
// tags, so one datatype stands for both.  Each file has its own helper class
// of classifiers: VsDataConvertFieldTypeUtils writes them as chains of `===`
// tests, DataConvertFieldTypeUtil as `includes` on fixed lists.  Both are
// modelled as written, and they are proved to agree.

module FieldTypes {
  import opened Wrappers

  /** The tags of VsDataConvertFieldTypeEnum / DataConvertFieldTypeEnum. */
  datatype FieldType =
    | String | Boolean | Integer | Double
    | Object
    | ArrayString | ArrayBoolean | ArrayInteger | ArrayDouble
    | ArrayObject
    | ArrayArray

  /** Every tag, in declaration order. */
  const AllTypes: seq<FieldType> :=
    [String, Boolean, Integer, Double, Object,
     ArrayString, ArrayBoolean, ArrayInteger, ArrayDouble, ArrayObject, ArrayArray]

  lemma AllTypesComplete(t: FieldType)
    ensures t in AllTypes
  {
  }

  /** getCode: the string value of the tag. */
  function Code(t: FieldType): string
  {
    match t
    case String => "STRING"
    case Boolean => "BOOLEAN"
    case Integer => "INTEGER"
    case Double => "DOUBLE"
    case Object => "OBJECT"
    case ArrayString => "ARRAY_STRING"
    case ArrayBoolean => "ARRAY_BOOLEAN"
    case ArrayInteger => "ARRAY_INTEGER"
    case ArrayDouble => "ARRAY_DOUBLE"
    case ArrayObject => "ARRAY_OBJECT"
    case ArrayArray => "ARRAY_ARRAY"
  }

  /** The tag whose string value is `s`, the way a stored value is read back
      into the enum. */
  function FromCode(s: string): Option<FieldType>
  {
    if s == "STRING" then Some(String)
    else if s == "BOOLEAN" then Some(Boolean)
    else if s == "INTEGER" then Some(Integer)
    else if s == "DOUBLE" then Some(Double)
    else if s == "OBJECT" then Some(Object)
    else if s == "ARRAY_STRING" then Some(ArrayString)
    else if s == "ARRAY_BOOLEAN" then Some(ArrayBoolean)
    else if s == "ARRAY_INTEGER" then Some(ArrayInteger)
    else if s == "ARRAY_DOUBLE" then Some(ArrayDouble)
    else if s == "ARRAY_OBJECT" then Some(ArrayObject)
    else if s == "ARRAY_ARRAY" then Some(ArrayArray)
    else None
  }

  /** Reading a code back gives the tag, and a string reads back to a tag
      only if it is that tag's code: codes are distinct and non-empty. */
  lemma CodeRoundTrip(t: FieldType, s: string)
    ensures FromCode(Code(t)) == Some(t)
    ensures FromCode(s) == Some(t) ==> Code(t) == s
    ensures Code(t) != ""
  {
  }

  /** Distinct tags have distinct codes. */
  lemma CodeInjective(t: FieldType, u: FieldType)
    ensures Code(t) == Code(u) ==> t == u
  {
    CodeRoundTrip(t, Code(u));
    CodeRoundTrip(u, Code(u));
  }

  /** getDesc: the entry of the description table.  The table has a key for
      every tag, so the lookup never yields undefined. */
  function Desc(t: FieldType): string
  {
    match t
    case String => "字符串"
    case Boolean => "布尔"
    case Integer => "整数"
    case Double => "小数"
    case Object => "对象"
    case ArrayString => "数组-字符串"
    case ArrayBoolean => "数组-布尔"
    case ArrayInteger => "数组-整数"
    case ArrayDouble => "数组-小数"
    case ArrayObject => "数组-对象"
    case ArrayArray => "数组-数组"
  }

  /** Every tag has a description, and an array tag's description is the
      array prefix followed by its element's description. */
  lemma DescTotal(t: FieldType)
    ensures Desc(t) != ""
    ensures t == ArrayString ==> Desc(t) == "数组-" + Desc(String)
    ensures t == ArrayBoolean ==> Desc(t) == "数组-" + Desc(Boolean)
    ensures t == ArrayInteger ==> Desc(t) == "数组-" + Desc(Integer)
    ensures t == ArrayDouble ==> Desc(t) == "数组-" + Desc(Double)
    ensures t == ArrayObject ==> Desc(t) == "数组-" + Desc(Object)
  {
  }

  // ---------------------------------------------------------------------------
  // VsDataConvertFieldTypeUtils: chains of ===

  predicate IsAtomic(t: FieldType)
  {
    t == String || t == Boolean || t == Integer || t == Double
  }

  predicate IsAtomicOrArrayAtomic(t: FieldType)
  {
    IsAtomic(t) || t == ArrayString || t == ArrayBoolean || t == ArrayInteger || t == ArrayDouble
  }

  predicate IsArrayAtomic(t: FieldType)
  {
    t == ArrayString || t == ArrayBoolean || t == ArrayInteger || t == ArrayDouble
  }

  predicate IsArrayObjectOrArrayAtomic(t: FieldType)
  {
    IsArrayObject(t) || IsArrayAtomic(t)
  }

  predicate IsObject(t: FieldType) { t == Object }

  predicate IsArrayObject(t: FieldType) { t == ArrayObject }

  predicate IsArrayArray(t: FieldType) { t == ArrayArray }

  predicate IsArray(t: FieldType)
  {
    IsAtomicOrArrayAtomic(t) || t == ArrayArray
  }

  // ---------------------------------------------------------------------------
  // DataConvertFieldTypeUtil: includes on fixed lists

  const AtomicList: seq<FieldType> := [String, Boolean, Integer, Double]
  const ArrayAtomicList: seq<FieldType> := [ArrayString, ArrayBoolean, ArrayInteger, ArrayDouble]

  predicate ListIsAtomic(t: FieldType) { t in AtomicList }

  predicate ListIsArrayAtomic(t: FieldType) { t in ArrayAtomicList }

  predicate ListIsAtomicOrArrayAtomic(t: FieldType)
  {
    ListIsAtomic(t) || ListIsArrayAtomic(t)
  }

  predicate ListIsArrayObjectOrArrayAtomic(t: FieldType)
  {
    ListIsArrayObject(t) || ListIsArrayAtomic(t)
  }

  predicate ListIsObject(t: FieldType) { t == Object }

  predicate ListIsArrayObject(t: FieldType) { t == ArrayObject }

  predicate ListIsArrayArray(t: FieldType) { t == ArrayArray }

  predicate ListIsArray(t: FieldType)
  {
    ListIsAtomicOrArrayAtomic(t) || t == ArrayArray
  }

  // ---------------------------------------------------------------------------
  // What the classifiers mean

  /** The two helper classes classify every tag alike. */
  lemma UtilsAgree(t: FieldType)
    ensures ListIsAtomic(t) <==> IsAtomic(t)
    ensures ListIsArrayAtomic(t) <==> IsArrayAtomic(t)
    ensures ListIsAtomicOrArrayAtomic(t) <==> IsAtomicOrArrayAtomic(t)
    ensures ListIsArrayObjectOrArrayAtomic(t) <==> IsArrayObjectOrArrayAtomic(t)
    ensures ListIsObject(t) <==> IsObject(t)
    ensures ListIsArrayObject(t) <==> IsArrayObject(t)
    ensures ListIsArrayArray(t) <==> IsArrayArray(t)
    ensures ListIsArray(t) <==> IsArray(t)
  {
  }

  /** The atomic tags are exactly four, the array-atomic tags the four array
      forms of them, and the two groups are disjoint. */
  lemma AtomicGroups(t: FieldType)
    ensures |AtomicList| == 4 && |ArrayAtomicList| == 4
    ensures IsAtomic(t) <==> t in AtomicList
    ensures IsArrayAtomic(t) <==> t in ArrayAtomicList
    ensures !(IsAtomic(t) && IsArrayAtomic(t))
  {
  }

  /** The unions are what their names say. */
  lemma Unions(t: FieldType)
    ensures IsAtomicOrArrayAtomic(t) <==> IsAtomic(t) || IsArrayAtomic(t)
    ensures IsArrayObjectOrArrayAtomic(t) <==> t == ArrayObject || IsArrayAtomic(t)
  {
  }

  /** isArrayType is false exactly for OBJECT and ARRAY_OBJECT: it holds for
      the atomic tags as well as for the array ones. */
  lemma ArrayTypeExcludesObjects(t: FieldType)
    ensures !IsArray(t) <==> t == Object || t == ArrayObject
    ensures IsAtomic(t) ==> IsArray(t)
  {
  }

  /** The object, array-object and array-array tests each pick out one tag. */
  lemma SingleTagTests(t: FieldType)
    ensures IsObject(t) <==> t == Object
    ensures IsArrayObject(t) <==> t == ArrayObject
    ensures IsArrayArray(t) <==> t == ArrayArray
  {
  }

  /** Every tag is in exactly one of the five groups: atomic, array-atomic,
      object, array-object, array-array. */
  lemma Partition(t: FieldType)
    ensures (if IsAtomic(t) then 1 else 0) + (if IsArrayAtomic(t) then 1 else 0)
          + (if IsObject(t) then 1 else 0) + (if IsArrayObject(t) then 1 else 0)
          + (if IsArrayArray(t) then 1 else 0) == 1
  {
  }
}
