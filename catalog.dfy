/**
 * The tables the search reads: DataFields, Warehouses, Collections and the
 * Distilleries that hold them, and the QueryFieldset a search is made of.
 */
module Catalog {
  import opened Base

  /** A DataField: its primary key, `field_name` and `field_type`. */
  datatype DataField = DataField(pk: nat, fieldName: string, fieldType: string)

  datatype Warehouse = Warehouse(pk: nat, name: string)

  datatype Collection = Collection(pk: nat, name: string, warehouse: nat)

  /**
   * A Distillery: its collection, the text fields it searches for keywords
   * (`get_text_fields()`), the DataField keys of its container's bottle and,
   * when the container has a label, those of the label.
   */
  datatype Distillery = Distillery(pk: nat, collection: nat, textFields: seq<DataField>,
                                   bottleFields: set<nat>, labelFields: Option<set<nat>>)

  /** The tables. */
  datatype Tables = Tables(fields: seq<DataField>, warehouses: seq<Warehouse>,
                           collections: seq<Collection>, distilleries: seq<Distillery>)

  /** A QueryFieldset: a field, an operator and the value to compare with. */
  datatype Fieldset = Fieldset(fieldName: string, fieldType: string, operator: string, value: string)

  /**
   * `DataField.objects.get(field_name__exact=name)`, `None` on `DoesNotExist`.
   * Field names are taken to be unique: with two fields of one name `get`
   * raises `MultipleObjectsReturned`, while this lookup returns the first.
   */
  function FindField(fields: seq<DataField>, name: string): (r: Option<DataField>)
    ensures r.None? <==> forall i :: 0 <= i < |fields| ==> fields[i].fieldName != name
    ensures r.Some? ==> r.value in fields && r.value.fieldName == name
  {
    if fields == [] then None
    else if fields[0].fieldName == name then Some(fields[0])
    else
      assert forall i :: 1 <= i < |fields| ==> fields[1..][i - 1] == fields[i];
      FindField(fields[1..], name)
  }
}
