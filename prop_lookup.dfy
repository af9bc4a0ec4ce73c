// Looking up a Notion property by its id and checking its type, on a page
// (getProp) and on a database (getDatabaseProp).
module PropLookup {
  import opened Wrappers
  import opened Entities
  import opened Errors
  import Seqs

  function TypeName(t: PropType): string
  {
    match t
    case TitleType => "title"
    case SelectType => "select"
    case DateType => "date"
    case CheckboxType => "checkbox"
    case UrlType => "url"
    case RichTextType => "rich_text"
    case LastEditedByType => "last_edited_by"
    case OtherType(n) => n
  }

  function TypeMismatch(propId: Option<string>, wanted: PropType, found: PropType): Failure
  {
    PlainError("Property " + Interpolate(propId) + " is not of type " + TypeName(wanted) + ", but " + TypeName(found))
  }

  /** The reading of `.type` on the `undefined` that `find` gives when no property has the id. */
  const MissingProperty: Failure := TypeError("Cannot read properties of undefined (reading 'type')")

  /** The plain text of a title or rich-text value: its pieces concatenated in order. */
  function PlainText(texts: seq<string>): string
  {
    if |texts| == 0 then "" else PlainText(texts[..|texts| - 1]) + texts[|texts| - 1]
  }

  /** The index of the first page property whose id is `propId`. */
  function FirstPagePropWithId(props: seq<PageProperty>, propId: Option<string>): (r: Option<nat>)
    ensures r.Some? ==> r.value < |props| && Some(props[r.value].id) == propId
    ensures r.Some? ==> forall j :: 0 <= j < r.value ==> Some(props[j].id) != propId
    ensures r.None? <==> forall j :: 0 <= j < |props| ==> Some(props[j].id) != propId
  {
    Seqs.FindIndex(props, (p: PageProperty) => Some(p.id) == propId)
  }

  /**
   * `getProp(page, propId, type)`: the first property with that id, if it
   * has the requested type; an error when there is none or it has another type.
   */
  function GetProp(page: NotionPage, propId: Option<string>, t: PropType): (r: Result<PageProperty, Failure>)
    ensures r.Ok? ==> r.value in page.properties && Some(r.value.id) == propId && r.value.value.Type() == t
  {
    match FirstPagePropWithId(page.properties, propId)
    case None => Err(MissingProperty)
    case Some(k) =>
      var p := page.properties[k];
      if p.value.Type() == t then Ok(p) else Err(TypeMismatch(propId, t, p.value.Type()))
  }

  /**
   * The lookup stops at the first property with the id: it succeeds exactly
   * when that one has the requested type, and returns it.
   */
  lemma GetPropFirst(page: NotionPage, propId: Option<string>, t: PropType)
    ensures GetProp(page, propId, t).Ok? <==>
              exists i :: 0 <= i < |page.properties| && Some(page.properties[i].id) == propId &&
                          page.properties[i].value.Type() == t &&
                          (forall k :: 0 <= k < i ==> Some(page.properties[k].id) != propId)
    ensures forall i :: (0 <= i < |page.properties| && Some(page.properties[i].id) == propId &&
                         (forall k :: 0 <= k < i ==> Some(page.properties[k].id) != propId)) ==>
              GetProp(page, propId, t) ==
                (if page.properties[i].value.Type() == t then Ok(page.properties[i])
                 else Err(TypeMismatch(propId, t, page.properties[i].value.Type())))
  {
    var f := FirstPagePropWithId(page.properties, propId);
    if f.Some? {
      forall i | 0 <= i < |page.properties| && Some(page.properties[i].id) == propId &&
                 (forall k :: 0 <= k < i ==> Some(page.properties[k].id) != propId)
        ensures i == f.value
      {
        if i < f.value {} else if i > f.value {}
      }
    }
  }

  /** A page with no property of the id fails with the TypeError of reading through `undefined`. */
  lemma GetPropMissing(page: NotionPage, propId: Option<string>, t: PropType)
    requires forall j :: 0 <= j < |page.properties| ==> Some(page.properties[j].id) != propId
    ensures GetProp(page, propId, t) == Err(MissingProperty)
  {
  }

  /** The index of the first database property whose id is `propId`. */
  function FirstDatabasePropWithId(props: seq<DatabaseProperty>, propId: string): (r: Option<nat>)
    ensures r.Some? ==> r.value < |props| && props[r.value].id == propId
    ensures r.Some? ==> forall j :: 0 <= j < r.value ==> props[j].id != propId
    ensures r.None? <==> forall j :: 0 <= j < |props| ==> props[j].id != propId
  {
    Seqs.FindIndex(props, (p: DatabaseProperty) => p.id == propId)
  }

  /** The lookup finds the index of the first property with the id, and no other. */
  lemma FirstDatabasePropAt(props: seq<DatabaseProperty>, propId: string, i: nat)
    requires i < |props| && props[i].id == propId
    requires forall j :: 0 <= j < i ==> props[j].id != propId
    ensures FirstDatabasePropWithId(props, propId) == Some(i)
  {
    var f := FirstDatabasePropWithId(props, propId);
    assert f.Some?;
    if f.value < i {} else if f.value > i {}
  }

  /** `getDatabaseProp(database, propId, type)`, the same lookup on database properties. */
  function GetDatabaseProp(props: seq<DatabaseProperty>, propId: string, t: PropType): (r: Result<DatabaseProperty, Failure>)
    ensures r.Ok? ==> r.value in props && r.value.id == propId && r.value.propType == t
  {
    match FirstDatabasePropWithId(props, propId)
    case None => Err(MissingProperty)
    case Some(k) =>
      var p := props[k];
      if p.propType == t then Ok(p) else Err(TypeMismatch(Some(propId), t, p.propType))
  }

  /** As on pages, the lookup decides on the first property with the id. */
  lemma GetDatabasePropFirst(props: seq<DatabaseProperty>, propId: string, t: PropType)
    ensures GetDatabaseProp(props, propId, t).Ok? <==>
              exists i :: 0 <= i < |props| && props[i].id == propId && props[i].propType == t &&
                          (forall k :: 0 <= k < i ==> props[k].id != propId)
    ensures forall i :: (0 <= i < |props| && props[i].id == propId &&
                         (forall k :: 0 <= k < i ==> props[k].id != propId)) ==>
              GetDatabaseProp(props, propId, t) ==
                (if props[i].propType == t then Ok(props[i]) else Err(TypeMismatch(Some(propId), t, props[i].propType)))
  {
    var f := FirstDatabasePropWithId(props, propId);
    if f.Some? {
      forall i | 0 <= i < |props| && props[i].id == propId && (forall k :: 0 <= k < i ==> props[k].id != propId)
        ensures i == f.value
      {
        if i < f.value {} else if i > f.value {}
      }
    }
  }

  lemma GetDatabasePropMissing(props: seq<DatabaseProperty>, propId: string, t: PropType)
    requires forall j :: 0 <= j < |props| ==> props[j].id != propId
    ensures GetDatabaseProp(props, propId, t) == Err(MissingProperty)
  {
  }
}
