/**
 * The CRM AI System Prompt table and its `validate` hook: saving a prompt
 * marked as the default clears the mark on every other row, so that the
 * default-prompt lookup of prompt assembly finds one row.
 */
module SystemPrompt {
  import opened Outcomes
  import opened PromptAssembly

  /** A row of the table; the integer `is_default` column is a boolean here. */
  datatype PromptRow = PromptRow(promptContent: Option<string>, modelIdentifier: Option<string>, isDefault: bool)

  type Rows = map<string, PromptRow>

  /** The names of the rows marked as the default. */
  function DefaultsOf(rows: Rows): (d: set<string>)
    ensures forall n :: n in d <==> n in rows && rows[n].isDefault
  {
    set n | n in rows && rows[n].isDefault
  }

  predicate AtMostOneDefault(rows: Rows)
  {
    forall a, b :: a in DefaultsOf(rows) && b in DefaultsOf(rows) ==> a == b
  }

  /**
   * The `UPDATE` statement of `validate`: every row other than `name` that
   * has `is_default = 1` gets `is_default = 0`.
   */
  function ClearOtherDefaults(rows: Rows, name: string): (r: Rows)
    ensures r.Keys == rows.Keys
    ensures forall n :: n in r ==> (r[n].isDefault <==> rows[n].isDefault && n == name)
    ensures forall n :: n in r ==> r[n] == rows[n].(isDefault := r[n].isDefault)
  {
    map n | n in rows :: if n != name && rows[n].isDefault then rows[n].(isDefault := false) else rows[n]
  }

  /** The table after `validate` and the write of the document `doc` under `name`. */
  function SavedRows(rows: Rows, name: string, doc: PromptRow): Rows
  {
    (if doc.isDefault then ClearOtherDefaults(rows, name) else rows)[name := doc]
  }

  /** Saving a default leaves it the only default. */
  lemma SaveDefaultIsOnlyDefault(rows: Rows, name: string, doc: PromptRow)
    requires doc.isDefault
    ensures DefaultsOf(SavedRows(rows, name, doc)) == {name}
  {
    var after := SavedRows(rows, name, doc);
    forall n | n in after && n != name
      ensures !after[n].isDefault
    {
      assert after[n] == ClearOtherDefaults(rows, name)[n];
    }
  }

  /** Saving a row that is not the default touches no other row. */
  lemma SaveNonDefaultTouchesNothingElse(rows: Rows, name: string, doc: PromptRow)
    requires !doc.isDefault
    ensures DefaultsOf(SavedRows(rows, name, doc)) == DefaultsOf(rows) - {name}
    ensures forall n :: n in rows && n != name ==> SavedRows(rows, name, doc)[n] == rows[n]
  {
  }

  /** `validate` changes the `is_default` column and nothing else; the saved row is the document. */
  lemma SaveChangesOnlyTheFlag(rows: Rows, name: string, doc: PromptRow)
    ensures SavedRows(rows, name, doc).Keys == rows.Keys + {name}
    ensures SavedRows(rows, name, doc)[name] == doc
    ensures forall n :: n in rows && n != name ==>
              SavedRows(rows, name, doc)[n] == rows[n].(isDefault := SavedRows(rows, name, doc)[n].isDefault)
    ensures forall n :: n in rows && n != name && SavedRows(rows, name, doc)[n].isDefault ==> rows[n].isDefault
  {
  }

  /** One save keeps the table to at most one default. */
  lemma SaveKeepsAtMostOneDefault(rows: Rows, name: string, doc: PromptRow)
    requires AtMostOneDefault(rows)
    ensures AtMostOneDefault(SavedRows(rows, name, doc))
  {
    if doc.isDefault {
      SaveDefaultIsOnlyDefault(rows, name, doc);
    } else {
      SaveNonDefaultTouchesNothingElse(rows, name, doc);
    }
  }

  /** The table after a series of saves, in order. */
  function SaveAll(rows: Rows, saves: seq<(string, PromptRow)>): Rows
    decreases |saves|
  {
    if saves == [] then rows
    else SaveAll(SavedRows(rows, saves[0].0, saves[0].1), saves[1..])
  }

  /** Any series of saves keeps the table to at most one default. */
  lemma {:induction false} SavesKeepAtMostOneDefault(rows: Rows, saves: seq<(string, PromptRow)>)
    requires AtMostOneDefault(rows)
    ensures AtMostOneDefault(SaveAll(rows, saves))
    decreases |saves|
  {
    if saves != [] {
      SaveKeepsAtMostOneDefault(rows, saves[0].0, saves[0].1);
      SavesKeepAtMostOneDefault(SavedRows(rows, saves[0].0, saves[0].1), saves[1..]);
    }
  }

  /**
   * `frappe.db.get_value` on `is_default = 1`: some default row, or none.
   * Which one the database returns is not specified when there are several.
   */
  ghost function DefaultLookup(rows: Rows): (r: Option<DefaultPrompt>)
    ensures r.None? <==> DefaultsOf(rows) == {}
    ensures r.Some? ==> r.value.name in DefaultsOf(rows)
                        && r.value.promptContent == rows[r.value.name].promptContent
                        && r.value.modelIdentifier == rows[r.value.name].modelIdentifier
  {
    if DefaultsOf(rows) == {} then None
    else
      var n :| n in DefaultsOf(rows);
      Some(DefaultPrompt(n, rows[n].promptContent, rows[n].modelIdentifier))
  }

  /** After a default is saved, prompt assembly reads that row. */
  lemma SavedDefaultIsLookedUp(rows: Rows, name: string, doc: PromptRow)
    requires doc.isDefault
    ensures DefaultLookup(SavedRows(rows, name, doc)) == Some(DefaultPrompt(name, doc.promptContent, doc.modelIdentifier))
  {
    SaveDefaultIsOnlyDefault(rows, name, doc);
  }

  /** The table, updated in place by saves. */
  class PromptTable {
    var rows: Rows

    constructor()
      ensures rows == map[]
    {
      rows := map[];
    }

    /** `validate`: the update it runs when the document being saved is the default. */
    method Validate(name: string, doc: PromptRow)
      modifies this
      ensures rows == if doc.isDefault then ClearOtherDefaults(old(rows), name) else old(rows)
    {
      if doc.isDefault {
        rows := ClearOtherDefaults(rows, name);
      }
    }

    /** Saving a document: `validate` runs, then the row is written. */
    method Save(name: string, doc: PromptRow)
      modifies this
      ensures rows == SavedRows(old(rows), name, doc)
      ensures AtMostOneDefault(old(rows)) ==> AtMostOneDefault(rows)
    {
      Validate(name, doc);
      rows := rows[name := doc];
      if AtMostOneDefault(old(rows)) {
        SaveKeepsAtMostOneDefault(old(rows), name, doc);
      }
    }
  }
}
