/**
 * Get-or-create contact resolution (`resolveContactId`): the identifier is
 * normalised, looked up by (workspace, type, value) in the identifier table,
 * and when no row answers with a contact id a contact and an identifier row
 * pointing to it are inserted. The two tables are held in memory; the id the
 * store generates for a new contact is a parameter.
 */
module ResolveContact {
  import opened Wrappers
  import opened Text
  import opened Identifiers

  /** A row of the contacts table. */
  datatype Contact = Contact(id: string, workspaceId: string, displayName: Option<string>)

  /** A row of the contact identifiers table. */
  datatype IdentifierRow = IdentifierRow(workspaceId: string, contactId: string, kind: IdentifierType, value: string)

  /** Both tables, in insertion order. */
  datatype Tables = Tables(contacts: seq<Contact>, identifiers: seq<IdentifierRow>)

  /** The tables after a call and the id it returns. */
  datatype Resolution = Resolution(tables: Tables, contactId: string)

  /** The three equalities of the lookup's `where`. */
  predicate Matches(row: IdentifierRow, workspaceId: string, i: ContactIdentifier) {
    row.workspaceId == workspaceId && row.kind == i.kind && row.value == i.value
  }

  /** The row the query with `limit(1)` returns: the first matching one. */
  function FirstMatch(rows: seq<IdentifierRow>, workspaceId: string, i: ContactIdentifier): (k: Option<nat>)
    ensures k.Some? ==> k.value < |rows| && Matches(rows[k.value], workspaceId, i)
    ensures k.Some? ==> forall j :: 0 <= j < k.value ==> !Matches(rows[j], workspaceId, i)
    ensures k.None? ==> forall j :: 0 <= j < |rows| ==> !Matches(rows[j], workspaceId, i)
  {
    if rows == [] then None
    else if Matches(rows[0], workspaceId, i) then Some(0)
    else
      assert forall j :: 1 <= j < |rows| ==> rows[j] == rows[1..][j - 1];
      match FirstMatch(rows[1..], workspaceId, i)
      case None => None
      case Some(k) => Some(k + 1)
  }

  /** `existing[0]?.contactId` when it is truthy, that is non-empty. */
  function Existing(rows: seq<IdentifierRow>, workspaceId: string, i: ContactIdentifier): (r: Option<string>)
  {
    match FirstMatch(rows, workspaceId, i)
    case None => None
    case Some(k) => if rows[k].contactId != "" then Some(rows[k].contactId) else None
  }

  /** What one call does to the tables and returns. */
  function ResolveOn(t: Tables, workspaceId: string, identifier: ContactIdentifier,
                     displayName: Option<string>, freshId: string): Resolution
  {
    var n := Normalize(identifier);
    match Existing(t.identifiers, workspaceId, n)
    case Some(id) => Resolution(t, id)
    case None =>
      Resolution(Tables(t.contacts + [Contact(freshId, workspaceId, displayName)],
                        t.identifiers + [IdentifierRow(workspaceId, freshId, n.kind, n.value)]),
                 freshId)
  }

  /** A contact with this id exists in this workspace. */
  predicate ContactIn(contacts: seq<Contact>, id: string, workspaceId: string) {
    exists k :: 0 <= k < |contacts| && contacts[k].id == id && contacts[k].workspaceId == workspaceId
  }

  /** No contact has this id yet. */
  predicate FreshIn(contacts: seq<Contact>, id: string) {
    forall k :: 0 <= k < |contacts| ==> contacts[k].id != id
  }

  /** Contact ids are unique. */
  predicate UniqueIds(contacts: seq<Contact>) {
    forall j, k :: 0 <= j < k < |contacts| ==> contacts[j].id != contacts[k].id
  }

  /** A stored identifier value is in normal form. */
  predicate NormalRow(row: IdentifierRow) {
    Normalize(ContactIdentifier(row.kind, row.value)) == ContactIdentifier(row.kind, row.value)
  }

  /** The tables as the resolver leaves them: every identifier row names a
      contact of its own workspace by a non-empty id and holds a normalised
      value, and contact ids are unique. */
  predicate WellFormed(t: Tables) {
    && UniqueIds(t.contacts)
    && forall j :: 0 <= j < |t.identifiers| ==>
         && t.identifiers[j].contactId != ""
         && NormalRow(t.identifiers[j])
         && ContactIn(t.contacts, t.identifiers[j].contactId, t.identifiers[j].workspaceId)
  }

  /** In well-formed tables a row answers exactly when some row matches. */
  lemma ExistingIffMatch(t: Tables, workspaceId: string, i: ContactIdentifier)
    requires WellFormed(t)
    ensures Existing(t.identifiers, workspaceId, i).Some? <==>
      exists j :: 0 <= j < |t.identifiers| && Matches(t.identifiers[j], workspaceId, i)
  {
    var k := FirstMatch(t.identifiers, workspaceId, i);
    if k.Some? {
      assert t.identifiers[k.value].contactId != "";
    }
  }

  /** A hit changes nothing and returns the contact of the first matching
      row of the normalised identifier. */
  lemma ResolveFindsExisting(t: Tables, workspaceId: string, identifier: ContactIdentifier,
                             displayName: Option<string>, freshId: string, j: nat)
    requires WellFormed(t)
    requires j < |t.identifiers| && Matches(t.identifiers[j], workspaceId, Normalize(identifier))
    ensures var r := ResolveOn(t, workspaceId, identifier, displayName, freshId);
      && r.tables == t
      && exists k :: 0 <= k <= j && Matches(t.identifiers[k], workspaceId, Normalize(identifier))
                     && t.identifiers[k].contactId == r.contactId
  {
    var n := Normalize(identifier);
    ExistingIffMatch(t, workspaceId, n);
    var k := FirstMatch(t.identifiers, workspaceId, n).value;
    assert k <= j;
  }

  /** A miss inserts exactly one contact in the workspace, with the given
      display name, and one identifier row holding the normalised identifier
      and pointing to it, and returns the new id. */
  lemma ResolveCreates(t: Tables, workspaceId: string, identifier: ContactIdentifier,
                       displayName: Option<string>, freshId: string)
    requires forall j :: 0 <= j < |t.identifiers| ==> !Matches(t.identifiers[j], workspaceId, Normalize(identifier))
    ensures var r := ResolveOn(t, workspaceId, identifier, displayName, freshId);
      && r.contactId == freshId
      && r.tables.contacts == t.contacts + [Contact(freshId, workspaceId, displayName)]
      && r.tables.identifiers == t.identifiers
           + [IdentifierRow(workspaceId, freshId, identifier.kind, Normalize(identifier).value)]
  {
  }

  /** Resolution keeps the tables well formed when the store's new id is
      non-empty and unused. */
  lemma ResolveKeepsWellFormed(t: Tables, workspaceId: string, identifier: ContactIdentifier,
                               displayName: Option<string>, freshId: string)
    requires WellFormed(t) && freshId != "" && FreshIn(t.contacts, freshId)
    ensures WellFormed(ResolveOn(t, workspaceId, identifier, displayName, freshId).tables)
  {
    var n := Normalize(identifier);
    if Existing(t.identifiers, workspaceId, n).None? {
      var t' := ResolveOn(t, workspaceId, identifier, displayName, freshId).tables;
      var last := |t.contacts|;
      assert t'.contacts[last].id == freshId && t'.contacts[last].workspaceId == workspaceId;
      forall j | 0 <= j < |t'.identifiers|
        ensures ContactIn(t'.contacts, t'.identifiers[j].contactId, t'.identifiers[j].workspaceId)
      {
        if j < |t.identifiers| {
          var row := t.identifiers[j];
          assert ContactIn(t.contacts, row.contactId, row.workspaceId);
          var k :| 0 <= k < |t.contacts| && t.contacts[k].id == row.contactId && t.contacts[k].workspaceId == row.workspaceId;
          assert t'.contacts[k] == t.contacts[k];
        }
      }
      NormalizeIdempotent(identifier);
      assert NormalRow(t'.identifiers[|t.identifiers|]);
    }
  }

  /** The id returned names a contact of the workspace asked about. */
  lemma ResolvedInWorkspace(t: Tables, workspaceId: string, identifier: ContactIdentifier,
                            displayName: Option<string>, freshId: string)
    requires WellFormed(t)
    ensures var r := ResolveOn(t, workspaceId, identifier, displayName, freshId);
      ContactIn(r.tables.contacts, r.contactId, workspaceId)
  {
    var n := Normalize(identifier);
    var r := ResolveOn(t, workspaceId, identifier, displayName, freshId);
    match FirstMatch(t.identifiers, workspaceId, n)
    case Some(k) =>
    case None =>
      assert r.tables.contacts[|t.contacts|].id == freshId;
  }

  /** Repeating a call with the same workspace and identifier returns the
      same id and inserts nothing, whatever the second display name and new
      id would have been. */
  lemma ResolveRepeat(t: Tables, workspaceId: string, identifier: ContactIdentifier,
                      displayName: Option<string>, freshId: string,
                      displayName2: Option<string>, freshId2: string)
    requires WellFormed(t) && freshId != "" && FreshIn(t.contacts, freshId)
    ensures var r := ResolveOn(t, workspaceId, identifier, displayName, freshId);
      ResolveOn(r.tables, workspaceId, identifier, displayName2, freshId2) == r
  {
    var n := Normalize(identifier);
    var r := ResolveOn(t, workspaceId, identifier, displayName, freshId);
    ResolveKeepsWellFormed(t, workspaceId, identifier, displayName, freshId);
    NormalizeIdempotent(identifier);
    match Existing(t.identifiers, workspaceId, n)
    case Some(id) =>
    case None =>
      var j := |t.identifiers|;
      assert Matches(r.tables.identifiers[j], workspaceId, n);
      ExistingIffMatch(r.tables, workspaceId, n);
      var k := FirstMatch(r.tables.identifiers, workspaceId, n).value;
      if k < j {
        assert r.tables.identifiers[k] == t.identifiers[k];
        assert FirstMatch(t.identifiers, workspaceId, n).Some?;
        ExistingIffMatch(t, workspaceId, n);
      }
  }

  /** Inserting in one workspace leaves the lookups of every other workspace
      as they were. */
  lemma OtherWorkspaceUnaffected(t: Tables, ws1: string, ws2: string, identifier: ContactIdentifier,
                                 displayName: Option<string>, freshId: string, i: ContactIdentifier)
    requires ws1 != ws2
    ensures Existing(ResolveOn(t, ws1, identifier, displayName, freshId).tables.identifiers, ws2, i)
         == Existing(t.identifiers, ws2, i)
  {
    var rows := ResolveOn(t, ws1, identifier, displayName, freshId).tables.identifiers;
    if rows != t.identifiers {
      assert rows[..|t.identifiers|] == t.identifiers;
      assert !Matches(rows[|t.identifiers|], ws2, i);
      FirstMatchOfAppend(t.identifiers, rows[|t.identifiers|], ws2, i);
    }
  }

  lemma FirstMatchOfAppend(rows: seq<IdentifierRow>, row: IdentifierRow, workspaceId: string, i: ContactIdentifier)
    requires !Matches(row, workspaceId, i)
    ensures FirstMatch(rows + [row], workspaceId, i) == FirstMatch(rows, workspaceId, i)
  {
    assert forall j :: 0 <= j < |rows| ==> (rows + [row])[j] == rows[j];
  }

  /** The same identifier resolved in two workspaces, one call after the
      other with unused new ids, yields two distinct contacts. */
  lemma WorkspacesDoNotShare(t: Tables, ws1: string, ws2: string, identifier: ContactIdentifier,
                             d1: Option<string>, id1: string, d2: Option<string>, id2: string)
    requires WellFormed(t) && ws1 != ws2
    requires id1 != "" && FreshIn(t.contacts, id1)
    requires id2 != "" && id2 != id1 && FreshIn(t.contacts, id2)
    ensures var r1 := ResolveOn(t, ws1, identifier, d1, id1);
      ResolveOn(r1.tables, ws2, identifier, d2, id2).contactId != r1.contactId
  {
    var r1 := ResolveOn(t, ws1, identifier, d1, id1);
    ResolveKeepsWellFormed(t, ws1, identifier, d1, id1);
    assert FreshIn(r1.tables.contacts, id2) by {
      assert r1.tables.contacts == t.contacts || r1.tables.contacts == t.contacts + [Contact(id1, ws1, d1)];
    }
    var r2 := ResolveOn(r1.tables, ws2, identifier, d2, id2);
    ResolveKeepsWellFormed(r1.tables, ws2, identifier, d2, id2);
    ResolvedInWorkspace(t, ws1, identifier, d1, id1);
    ResolvedInWorkspace(r1.tables, ws2, identifier, d2, id2);
    var a :| 0 <= a < |r1.tables.contacts| && r1.tables.contacts[a].id == r1.contactId && r1.tables.contacts[a].workspaceId == ws1;
    var b :| 0 <= b < |r2.tables.contacts| && r2.tables.contacts[b].id == r2.contactId && r2.tables.contacts[b].workspaceId == ws2;
    assert r2.tables.contacts[a] == r1.tables.contacts[a] by {
      assert r2.tables.contacts == r1.tables.contacts || r2.tables.contacts == r1.tables.contacts + [Contact(id2, ws2, d2)];
    }
    assert a != b;
  }

  /** Emails that differ only in the case of their letters resolve alike. */
  lemma EmailsResolveAlike(t: Tables, workspaceId: string, a: string, b: string,
                           displayName: Option<string>, freshId: string)
    requires ToLower(a) == ToLower(b)
    ensures ResolveOn(t, workspaceId, ContactIdentifier(Email, a), displayName, freshId)
         == ResolveOn(t, workspaceId, ContactIdentifier(Email, b), displayName, freshId)
  {
    EmailCaseIgnored(a, b);
  }

  /** Whitespace around an identifier never changes the resolution. */
  lemma SurroundingWhitespaceResolvesAlike(t: Tables, workspaceId: string, kind: IdentifierType,
                                           pre: string, v: string, post: string,
                                           displayName: Option<string>, freshId: string)
    requires AllWhitespace(pre) && AllWhitespace(post)
    ensures ResolveOn(t, workspaceId, ContactIdentifier(kind, pre + v + post), displayName, freshId)
         == ResolveOn(t, workspaceId, ContactIdentifier(kind, v), displayName, freshId)
  {
    SurroundingWhitespaceIgnored(kind, pre, v, post);
  }

  /** Phone numbers that differ only in whitespace inside resolve alike. */
  lemma PhonesResolveAlike(t: Tables, workspaceId: string, x: string, w: string, y: string,
                           displayName: Option<string>, freshId: string)
    requires AllWhitespace(w)
    ensures ResolveOn(t, workspaceId, ContactIdentifier(Phone, x + w + y), displayName, freshId)
         == ResolveOn(t, workspaceId, ContactIdentifier(Phone, x + y), displayName, freshId)
  {
    PhoneSpacingIgnored(x, w, y);
  }

  /** The two tables of the store. */
  class ContactDirectory {
    var contacts: seq<Contact>
    var identifiers: seq<IdentifierRow>

    constructor(contacts: seq<Contact>, identifiers: seq<IdentifierRow>)
      ensures this.contacts == contacts && this.identifiers == identifiers
    {
      this.contacts := contacts;
      this.identifiers := identifiers;
    }

    /** `resolveContactId`: select, then on a miss insert the contact and
        then its identifier row; `freshId` is the id the store assigns. */
    method ResolveContactId(workspaceId: string, identifier: ContactIdentifier,
                            displayName: Option<string>, freshId: string) returns (contactId: string)
      modifies this
      ensures Resolution(Tables(contacts, identifiers), contactId)
           == ResolveOn(old(Tables(contacts, identifiers)), workspaceId, identifier, displayName, freshId)
    {
      var n := Normalize(identifier);
      var existing := Existing(identifiers, workspaceId, n);
      if existing.Some? {
        return existing.value;
      }
      contacts := contacts + [Contact(freshId, workspaceId, displayName)];
      contactId := freshId;
      identifiers := identifiers + [IdentifierRow(workspaceId, contactId, n.kind, n.value)];
    }
  }
}
