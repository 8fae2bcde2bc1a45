/**
 * The admin panel's FusionPay key form: it loads the user's stored key pair
 * from `user_payment_settings`, and saves an edited pair by updating the
 * user's row when one was loaded and inserting one otherwise.
 *
 * The table is a sequence of rows with no uniqueness on the user id; a query
 * that reaches the store and fails is an input carrying the error code.
 */
module PaymentKeys {
  import opened Wrappers

  /** The code PostgREST gives `maybeSingle()` when more than one row matches; the loader ignores it. */
  const MultipleRowsCode := "PGRST116"

  datatype KeyRow = KeyRow(userId: string, publicKey: Option<string>, secretKey: Option<string>)

  /** The rows belonging to `userId`, in table order. */
  function RowsFor(rows: seq<KeyRow>, userId: string): (r: seq<KeyRow>)
    ensures |r| <= |rows|
    ensures forall i :: 0 <= i < |r| ==> r[i].userId == userId && r[i] in rows
    ensures forall i :: 0 <= i < |rows| && rows[i].userId == userId ==> rows[i] in r
    ensures forall row: KeyRow :: multiset(r)[row] == if row.userId == userId then multiset(rows)[row] else 0
  {
    if rows == [] then []
    else
      assert rows == [rows[0]] + rows[1..];
      var rest := RowsFor(rows[1..], userId);
      if rows[0].userId == userId then [rows[0]] + rest
      else rest
  }

  lemma {:induction false} RowsForAppend(a: seq<KeyRow>, b: seq<KeyRow>, userId: string)
    ensures RowsFor(a + b, userId) == RowsFor(a, userId) + RowsFor(b, userId)
  {
    if a == [] {
      assert a + b == b;
    } else {
      assert (a + b)[0] == a[0] && (a + b)[1..] == a[1..] + b;
      RowsForAppend(a[1..], b, userId);
    }
  }

  /** The result of `.select("*").eq("user_id", userId).maybeSingle()`. */
  datatype Lookup = Found(row: KeyRow) | NoRow | LookupError(code: string)

  function MaybeSingle(rows: seq<KeyRow>, userId: string): (r: Lookup)
    ensures r.Found? <==> |RowsFor(rows, userId)| == 1
    ensures r.NoRow? <==> |RowsFor(rows, userId)| == 0
    ensures r.Found? ==> r.row == RowsFor(rows, userId)[0]
    ensures |RowsFor(rows, userId)| >= 2 ==> r == LookupError(MultipleRowsCode)
  {
    var mine := RowsFor(rows, userId);
    if |mine| == 0 then NoRow
    else if |mine| == 1 then Found(mine[0])
    else LookupError(MultipleRowsCode)
  }

  /** `.update({keys}).eq("user_id", userId)`: every row of the user gets the pair; every other row is unchanged. */
  function UpdateFor(rows: seq<KeyRow>, userId: string, publicKey: string, secretKey: string): (r: seq<KeyRow>)
    ensures |r| == |rows|
    ensures forall i :: 0 <= i < |rows| ==>
              r[i] == if rows[i].userId == userId then KeyRow(userId, Some(publicKey), Some(secretKey)) else rows[i]
  {
    if rows == [] then []
    else
      var head := if rows[0].userId == userId then KeyRow(userId, Some(publicKey), Some(secretKey)) else rows[0];
      [head] + UpdateFor(rows[1..], userId, publicKey, secretKey)
  }

  /** An update never adds or removes rows of the user. */
  lemma {:induction false} UpdateKeepsRowCount(rows: seq<KeyRow>, userId: string, publicKey: string, secretKey: string)
    ensures |RowsFor(UpdateFor(rows, userId, publicKey, secretKey), userId)| == |RowsFor(rows, userId)|
    ensures forall i :: 0 <= i < |RowsFor(UpdateFor(rows, userId, publicKey, secretKey), userId)| ==>
              RowsFor(UpdateFor(rows, userId, publicKey, secretKey), userId)[i] == KeyRow(userId, Some(publicKey), Some(secretKey))
  {
    if rows != [] {
      var u := UpdateFor(rows, userId, publicKey, secretKey);
      assert u[1..] == UpdateFor(rows[1..], userId, publicKey, secretKey);
      UpdateKeepsRowCount(rows[1..], userId, publicKey, secretKey);
    }
  }

  /** An update for one user leaves every other user's rows as they were. */
  lemma {:induction false} UpdateLeavesOthers(rows: seq<KeyRow>, userId: string, other: string, publicKey: string, secretKey: string)
    requires other != userId
    ensures RowsFor(UpdateFor(rows, userId, publicKey, secretKey), other) == RowsFor(rows, other)
  {
    if rows != [] {
      var u := UpdateFor(rows, userId, publicKey, secretKey);
      assert u[0] == (if rows[0].userId == userId then NewRow(userId, publicKey, secretKey) else rows[0]);
      assert u[1..] == UpdateFor(rows[1..], userId, publicKey, secretKey);
      UpdateLeavesOthers(rows[1..], userId, other, publicKey, secretKey);
    }
  }

  /** The row an insert adds. */
  function NewRow(userId: string, publicKey: string, secretKey: string): (row: KeyRow)
    ensures row.userId == userId
    ensures LoadedKeys(Found(row)) == Some((publicKey, secretKey))
  {
    KeyRow(userId, Some(publicKey), Some(secretKey))
  }

  /** The table after a successful save: an update when settings were loaded, an insert otherwise. */
  function SavedRows(rows: seq<KeyRow>, userId: string, hasSettings: bool, publicKey: string, secretKey: string): (r: seq<KeyRow>)
    ensures hasSettings ==> |RowsFor(r, userId)| == |RowsFor(rows, userId)|
    ensures hasSettings ==> forall i :: 0 <= i < |RowsFor(r, userId)| ==> RowsFor(r, userId)[i] == NewRow(userId, publicKey, secretKey)
    ensures !hasSettings ==> RowsFor(r, userId) == RowsFor(rows, userId) + [NewRow(userId, publicKey, secretKey)]
    ensures forall other :: other != userId ==> RowsFor(r, other) == RowsFor(rows, other)
  {
    if hasSettings then
      UpdateKeepsRowCount(rows, userId, publicKey, secretKey);
      forall other | other != userId
        ensures RowsFor(UpdateFor(rows, userId, publicKey, secretKey), other) == RowsFor(rows, other)
      {
        UpdateLeavesOthers(rows, userId, other, publicKey, secretKey);
      }
      UpdateFor(rows, userId, publicKey, secretKey)
    else
      var row := NewRow(userId, publicKey, secretKey);
      forall u
        ensures RowsFor(rows + [row], u) == RowsFor(rows, u) + RowsFor([row], u)
      {
        RowsForAppend(rows, [row], u);
      }
      assert RowsFor([row], userId) == [row] by {
        assert [row][1..] == [];
      }
      forall other | other != userId
        ensures RowsFor([row], other) == []
      {
        assert [row][1..] == [];
      }
      rows + [row]
  }

  /** What the loader takes from a lookup: both keys (`""` for a missing one) and settings present, or nothing. */
  function LoadedKeys(lookup: Lookup): (r: Option<(string, string)>)
    ensures r.Some? <==> lookup.Found?
    ensures r.Some? ==> r.value == (lookup.row.publicKey.GetOr(""), lookup.row.secretKey.GetOr(""))
  {
    match lookup
    case Found(row) => Some((row.publicKey.GetOr(""), row.secretKey.GetOr("")))
    case _ => None
  }

  /** The user's table state and the form's flag agree: no row and no settings, or one row and settings. */
  ghost predicate Consistent(rows: seq<KeyRow>, userId: string, hasSettings: bool)
  {
    (|RowsFor(rows, userId)| == 0 && !hasSettings) || (|RowsFor(rows, userId)| == 1 && hasSettings)
  }

  /**
   * A successful save from a consistent state leaves exactly one row for the
   * user, holding the saved pair, so the next load finds it and the next save
   * updates it instead of inserting again.
   */
  lemma SaveKeepsOneRow(rows: seq<KeyRow>, userId: string, hasSettings: bool, publicKey: string, secretKey: string)
    requires Consistent(rows, userId, hasSettings)
    ensures Consistent(SavedRows(rows, userId, hasSettings, publicKey, secretKey), userId, true)
    ensures MaybeSingle(SavedRows(rows, userId, hasSettings, publicKey, secretKey), userId) == Found(NewRow(userId, publicKey, secretKey))
  {
    var saved := SavedRows(rows, userId, hasSettings, publicKey, secretKey);
    if hasSettings {
      UpdateKeepsRowCount(rows, userId, publicKey, secretKey);
    } else {
      RowsForAppend(rows, [NewRow(userId, publicKey, secretKey)], userId);
      assert RowsFor([NewRow(userId, publicKey, secretKey)], userId) == [NewRow(userId, publicKey, secretKey)];
    }
  }

  /** With two or more rows for the user the loader gets the ignored error code, so it shows no keys and will insert yet another row. */
  lemma DuplicateRowsLoadNothing(rows: seq<KeyRow>, userId: string)
    requires |RowsFor(rows, userId)| >= 2
    ensures MaybeSingle(rows, userId) == LookupError(MultipleRowsCode)
    ensures LoadedKeys(MaybeSingle(rows, userId)).None?
  {
  }

  class SettingsTable {
    var rows: seq<KeyRow>

    constructor (initial: seq<KeyRow>)
      ensures rows == initial
    {
      rows := initial;
    }
  }

  /** How a save attempt ended. */
  datatype SaveResult = MissingKey | Saved | SaveFailed

  class PaymentKeysManager {
    const userId: string
    var loading: bool
    var saving: bool
    var publicKey: string
    var secretKey: string
    var showSecretKey: bool
    var hasSettings: bool

    constructor (user: string)
      ensures userId == user && loading && !saving && publicKey == "" && secretKey == ""
      ensures !showSecretKey && !hasSettings
    {
      userId := user;
      loading := true;
      saving := false;
      publicKey := "";
      secretKey := "";
      showSecretKey := false;
      hasSettings := false;
    }

    /**
     * `fetchPaymentKeys`: a found row fills both keys and sets `hasSettings`;
     * otherwise nothing changes. Only an error other than PGRST116 is
     * reported. `fault` is the error code of a query that failed in the store.
     */
    method FetchPaymentKeys(table: SettingsTable, fault: Option<string>) returns (reported: bool)
      modifies this
      ensures !loading
      ensures var lookup := if fault.Some? then LookupError(fault.value) else MaybeSingle(table.rows, userId);
              && reported == (lookup.LookupError? && lookup.code != MultipleRowsCode)
              && match LoadedKeys(lookup)
                 case Some(keys) => publicKey == keys.0 && secretKey == keys.1 && hasSettings
                 case None => publicKey == old(publicKey) && secretKey == old(secretKey) && hasSettings == old(hasSettings)
      ensures saving == old(saving) && showSecretKey == old(showSecretKey)
    {
      loading := true;
      var lookup := if fault.Some? then LookupError(fault.value) else MaybeSingle(table.rows, userId);
      reported := lookup.LookupError? && lookup.code != MultipleRowsCode;
      if lookup.Found? {
        publicKey := lookup.row.publicKey.GetOr("");
        secretKey := lookup.row.secretKey.GetOr("");
        hasSettings := true;
      }
      loading := false;
    }

    method SetPublicKey(value: string)
      modifies this`publicKey
      ensures publicKey == value
    {
      publicKey := value;
    }

    method SetSecretKey(value: string)
      modifies this`secretKey
      ensures secretKey == value
    {
      secretKey := value;
    }

    /** The button is enabled only when not saving and both keys are filled in. */
    predicate SaveEnabled()
      reads this
      ensures SaveEnabled() ==> publicKey != "" && secretKey != "" && !saving
    {
      !saving && publicKey != "" && secretKey != ""
    }

    /**
     * `handleSave`: with a key empty nothing is written; otherwise the user's
     * row is updated when settings were loaded, or a row is inserted (and
     * `hasSettings` set) when not. A failed write changes nothing. Every
     * attempt that gets past the key check ends with `saving` false.
     */
    method HandleSave(table: SettingsTable, writeFails: bool) returns (result: SaveResult)
      modifies this`saving, this`hasSettings, table
      ensures result == MissingKey ==> saving == old(saving)
      ensures result != MissingKey ==> !saving
      ensures old(publicKey) == "" || old(secretKey) == "" ==> result == MissingKey
      ensures result == MissingKey ==> old(publicKey) == "" || old(secretKey) == ""
      ensures old(SaveEnabled()) ==> result != MissingKey
      ensures result == Saved <==> publicKey != "" && secretKey != "" && !writeFails
      ensures result == Saved ==>
                table.rows == SavedRows(old(table.rows), userId, old(hasSettings), publicKey, secretKey) && hasSettings
      ensures result != Saved ==> table.rows == old(table.rows) && hasSettings == old(hasSettings)
    {
      if publicKey == "" || secretKey == "" {
        return MissingKey;
      }
      saving := true;
      if writeFails {
        result := SaveFailed;
      } else {
        if hasSettings {
          table.rows := UpdateFor(table.rows, userId, publicKey, secretKey);
        } else {
          table.rows := table.rows + [NewRow(userId, publicKey, secretKey)];
          hasSettings := true;
        }
        result := Saved;
      }
      saving := false;
    }
  }
}
