/** The `Attribute` type enumeration of skydoc's build protocol buffer
    (`build_pb2.Attribute`): the kind tag a descriptor carries. */
module BuildProto {

  datatype AttributeType =
    | Unknown
    | Boolean
    | Integer
    | IntegerList
    | Label
    | LabelList
    | License
    | Output
    | OutputList
    | String
    | StringDict
    | StringList
    | StringListDict
    | LabelKeyedStringDict
}
