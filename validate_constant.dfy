// The property catalogue validation works from: which user properties are
// required, which are optional, which can be recreated in the user's
// database, and the type each one must have.
module ValidateConstants {
  import opened Wrappers
  import opened Entities

  /** The properties every user mapping must have, in checking order. */
  const RequiredProps: seq<string> := ["title", "calendar", "date", "delete", "link", "last_edited_by"]

  /** The properties checked only when additional properties are synced. */
  const AdditionalProps: seq<string> := ["location", "description"]

  /** The properties that can be recreated when missing. */
  const AddableProps: seq<string> := ["delete", "last_edited_by", "link", "location", "description"]

  /** The type each known property must have. */
  const PropTypes: seq<(string, PropType)> := [
    ("title", TitleType), ("calendar", SelectType), ("date", DateType), ("delete", CheckboxType),
    ("link", UrlType), ("description", RichTextType), ("location", RichTextType),
    ("last_edited_by", LastEditedByType)]

  /** The type a recreated property is given. */
  const AddableTypes: seq<(string, PropType)> := [
    ("delete", CheckboxType), ("last_edited_by", LastEditedByType), ("description", RichTextType),
    ("link", UrlType), ("location", RichTextType)]

  /** Membership in one of the lists above, looked at one entry at a time. */
  predicate Listed(names: seq<string>, key: string)
  {
    |names| > 0 && (names[0] == key || Listed(names[1..], key))
  }

  /** The entry of `key` in a type table; `undefined` when there is none. */
  function TypeIn(table: seq<(string, PropType)>, key: string): Option<PropType>
  {
    if |table| == 0 then None
    else if table[0].0 == key then Some(table[0].1)
    else TypeIn(table[1..], key)
  }

  lemma {:induction false} ListedIn(names: seq<string>, key: string)
    ensures Listed(names, key) <==> key in names
  {
    if |names| > 0 {
      ListedIn(names[1..], key);
      assert names == [names[0]] + names[1..];
    }
  }

  lemma {:induction false} TypeInSome(table: seq<(string, PropType)>, key: string)
    ensures TypeIn(table, key).Some? <==> exists k :: 0 <= k < |table| && table[k].0 == key
    ensures TypeIn(table, key).Some? ==> (key, TypeIn(table, key).value) in table
  {
    if |table| > 0 {
      TypeInSome(table[1..], key);
      if table[0].0 != key && TypeIn(table, key).Some? {
        var k :| 0 <= k < |table[1..]| && table[1..][k].0 == key;
        assert table[k + 1].0 == key;
      }
      if TypeIn(table, key).None? {
        forall k | 0 <= k < |table| ensures table[k].0 != key {
          if k > 0 { assert table[k] == table[1..][k - 1]; }
        }
      }
    }
  }

  predicate IsRequired(key: string) { Listed(RequiredProps, key) }
  predicate IsAdditional(key: string) { Listed(AdditionalProps, key) }
  predicate IsAddable(key: string) { Listed(AddableProps, key) }

  /** `propsTypeMap[key]`. */
  function PropsTypeMap(key: string): Option<PropType>
  {
    TypeIn(PropTypes, key)
  }

  /** `addablePropsTypeMap[key]`. */
  function AddableTypeMap(key: string): Option<PropType>
  {
    TypeIn(AddableTypes, key)
  }

  /** Exactly the required and the additional properties have a type. */
  lemma PropsTypeMapKeys(key: string)
    ensures PropsTypeMap(key).Some? <==> IsRequired(key) || IsAdditional(key)
  {
    TypeInSome(PropTypes, key);
    ListedIn(RequiredProps, key);
    ListedIn(AdditionalProps, key);
    if PropsTypeMap(key).Some? {
      var k :| 0 <= k < |PropTypes| && PropTypes[k].0 == key;
    }
    if IsRequired(key) || IsAdditional(key) {
      assert key in RequiredProps + AdditionalProps;
    }
  }

  /** Exactly the recreatable properties have a recreation type. */
  lemma AddableTypeMapKeys(key: string)
    ensures AddableTypeMap(key).Some? <==> IsAddable(key)
  {
    TypeInSome(AddableTypes, key);
    ListedIn(AddableProps, key);
    if AddableTypeMap(key).Some? {
      var k :| 0 <= k < |AddableTypes| && AddableTypes[k].0 == key;
    }
  }

  /** A recreatable property is a known one. */
  lemma AddableKnown(key: string)
    requires IsAddable(key)
    ensures IsRequired(key) || IsAdditional(key)
  {
    ListedIn(AddableProps, key);
    ListedIn(RequiredProps, key);
    ListedIn(AdditionalProps, key);
  }

  /**
   * A recreatable property is recreated with the type validation expects of
   * it, so a recreated property passes the type check.
   */
  lemma AddableTypesAgree(key: string)
    requires IsAddable(key)
    ensures AddableTypeMap(key).Some? && AddableTypeMap(key) == PropsTypeMap(key)
  {
    ListedIn(AddableProps, key);
    if key == "delete" {
      assert AddableTypeMap("delete") == PropsTypeMap("delete") == Some(CheckboxType);
    } else if key == "last_edited_by" {
      assert AddableTypeMap("last_edited_by") == PropsTypeMap("last_edited_by") == Some(LastEditedByType);
    } else if key == "description" {
      assert AddableTypeMap("description") == PropsTypeMap("description") == Some(RichTextType);
    } else if key == "link" {
      assert AddableTypeMap("link") == PropsTypeMap("link") == Some(UrlType);
    } else {
      assert AddableTypeMap("location") == PropsTypeMap("location") == Some(RichTextType);
    }
  }

  /** Among the required properties, exactly title, calendar and date cannot be recreated. */
  lemma UnaddableRequired(key: string)
    requires IsRequired(key)
    ensures !IsAddable(key) <==> key in ["title", "calendar", "date"]
  {
    ListedIn(RequiredProps, key);
    ListedIn(AddableProps, key);
  }

  /** Every additional property can be recreated. */
  lemma AdditionalAddable(key: string)
    requires IsAdditional(key)
    ensures IsAddable(key)
  {
    ListedIn(AdditionalProps, key);
    ListedIn(AddableProps, key);
  }
}
