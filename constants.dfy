/** The constants of scripts/constants.js. */
module Constants {
  import opened Values

  const MODULE_ID: string := "daggerheart-death-moves"

  /** An object literal whose values are strings, as its entries in source order. */
  type StringTable = seq<(string, string)>

  /** Property lookup on such an object: a missing property is `undefined`. */
  function Lookup(table: StringTable, name: string): JsValue
  {
    if table == [] then Undefined
    else if table[0].0 == name then Str(table[0].1)
    else Lookup(table[1..], name)
  }

  /** A lookup is `undefined` exactly when no entry has that name, and otherwise
      gives the value of the first entry that has it. */
  lemma {:induction false} LookupMeaning(table: StringTable, name: string)
    ensures Lookup(table, name).Undefined? <==> forall i :: 0 <= i < |table| ==> table[i].0 != name
    ensures Lookup(table, name).Str? ==>
      exists i :: 0 <= i < |table| && table[i] == (name, Lookup(table, name).s) &&
        forall j :: 0 <= j < i ==> table[j].0 != name
  {
    if table != [] && table[0].0 != name {
      LookupMeaning(table[1..], name);
      var v := Lookup(table, name);
      if v.Str? {
        var i :| 0 <= i < |table[1..]| && table[1..][i] == (name, v.s) &&
          forall j :: 0 <= j < i ==> table[1..][j].0 != name;
        assert table[i + 1] == (name, v.s);
        forall j | 0 <= j < i + 1 ensures table[j].0 != name {
          if j > 0 { assert table[j] == table[1..][j - 1]; }
        }
      } else {
        forall i | 0 <= i < |table| ensures table[i].0 != name {
          if i > 0 { assert table[i] == table[1..][i - 1]; }
        }
      }
    } else if table != [] {
      assert table[0] == (name, Lookup(table, name).s);
    }
  }

  /** SOCKET_TYPES as the repository defines it: two of the five names the
      other scripts use, SHOW_BORDER and REMOVE_BORDER, are missing. */
  const SOCKET_TYPES: StringTable := [
    ("SHOW_UI", "SHOW_UI"),
    ("PLAY_MEDIA", "PLAY_MEDIA"),
    ("PLAY_SOUND", "PLAY_SOUND")
  ]

  /** SOCKET_TYPES with the two border names the emit sites and the dispatcher also read. */
  const SOCKET_TYPES_FIXED: StringTable := [
    ("SHOW_UI", "SHOW_UI"),
    ("PLAY_MEDIA", "PLAY_MEDIA"),
    ("PLAY_SOUND", "PLAY_SOUND"),
    ("SHOW_BORDER", "SHOW_BORDER"),
    ("REMOVE_BORDER", "REMOVE_BORDER")
  ]

  lemma BorderTypesUndefined()
    ensures Lookup(SOCKET_TYPES, "SHOW_BORDER") == Undefined
    ensures Lookup(SOCKET_TYPES, "REMOVE_BORDER") == Undefined
    ensures Lookup(SOCKET_TYPES, "SHOW_UI") == Str("SHOW_UI")
    ensures Lookup(SOCKET_TYPES, "PLAY_MEDIA") == Str("PLAY_MEDIA")
    ensures Lookup(SOCKET_TYPES, "PLAY_SOUND") == Str("PLAY_SOUND")
  {
  }

  lemma FixedTypesDefined()
    ensures Lookup(SOCKET_TYPES_FIXED, "SHOW_BORDER") == Str("SHOW_BORDER")
    ensures Lookup(SOCKET_TYPES_FIXED, "REMOVE_BORDER") == Str("REMOVE_BORDER")
    ensures SOCKET_TYPES_FIXED[..3] == SOCKET_TYPES
  {
  }
}
