/** The hosted backend's two tables, held in memory so that the row updates the client
    requests can be stated exactly. Each operation is the effect of one filtered call:
    `.eq(column, value)` keys become conditions on the rows. */
module Backend {
  import opened Types

  /** `update({ category: newName }).eq('category', oldName).eq('user_id', user)`. */
  function RenameCategoryRows(rows: seq<Transaction>, oldName: string, newName: string, user: string): (r: seq<Transaction>)
    ensures |r| == |rows|
    ensures forall i :: 0 <= i < |rows| ==>
      r[i] == if rows[i].category == oldName && rows[i].userId == user
              then rows[i].(category := newName) else rows[i]
  {
    seq(|rows|, i requires 0 <= i < |rows| =>
      if rows[i].category == oldName && rows[i].userId == user then rows[i].(category := newName) else rows[i])
  }

  /** After a rename no row of that user keeps the old name, whatever its type. */
  lemma RenameLeavesNoOldName(rows: seq<Transaction>, oldName: string, newName: string, user: string)
    requires oldName != newName
    ensures forall t :: t in RenameCategoryRows(rows, oldName, newName, user) && t.userId == user ==>
      t.category != oldName
  {
    var r := RenameCategoryRows(rows, oldName, newName, user);
    forall t | t in r && t.userId == user
      ensures t.category != oldName
    {
      var i :| 0 <= i < |r| && r[i] == t;
      assert r[i].userId == rows[i].userId;
    }
  }

  /** Other users' rows come through the rename unchanged, in place. */
  lemma RenameSparesOtherUsers(rows: seq<Transaction>, oldName: string, newName: string, user: string, i: nat)
    requires i < |rows| && rows[i].userId != user
    ensures RenameCategoryRows(rows, oldName, newName, user)[i] == rows[i]
  {
  }

  /** Renaming to the same name is the identity. */
  lemma RenameToSameName(rows: seq<Transaction>, name: string, user: string)
    ensures RenameCategoryRows(rows, name, name, user) == rows
  {
    var r := RenameCategoryRows(rows, name, name, user);
    assert forall i :: 0 <= i < |rows| ==> r[i] == rows[i];
  }

  /** Renaming and renaming back restores the rows, provided no row of that user
      already carried the new name. */
  lemma RenameRoundTrip(rows: seq<Transaction>, oldName: string, newName: string, user: string)
    requires forall t :: t in rows && t.userId == user ==> t.category != newName
    ensures RenameCategoryRows(RenameCategoryRows(rows, oldName, newName, user), newName, oldName, user) == rows
  {
    var once := RenameCategoryRows(rows, oldName, newName, user);
    var twice := RenameCategoryRows(once, newName, oldName, user);
    forall i | 0 <= i < |rows|
      ensures twice[i] == rows[i]
    {
      assert rows[i] in rows;
    }
  }

  /** `update(payload).eq('id', id).eq('user_id', user)` on the categories table: every
      matching row takes the payload's name, icon and type and keeps its id and owner. */
  function UpdateCategoryRows(rows: seq<Category>, id: string, user: string, name: string, icon: string, kind: TxType): (r: seq<Category>)
    ensures |r| == |rows|
    ensures forall i :: 0 <= i < |rows| ==>
      r[i] == if rows[i].id == id && rows[i].userId == user
              then Category(rows[i].id, user, name, Some(icon), kind) else rows[i]
  {
    seq(|rows|, i requires 0 <= i < |rows| =>
      if rows[i].id == id && rows[i].userId == user then Category(rows[i].id, user, name, Some(icon), kind) else rows[i])
  }

  /** `delete().eq('id', id).eq('user_id', user)` on the categories table. */
  function DeleteCategoryRows(rows: seq<Category>, id: string, user: string): (r: seq<Category>)
    ensures |r| <= |rows|
    ensures forall c :: c in r <==> c in rows && !(c.id == id && c.userId == user)
  {
    if rows == [] then []
    else if rows[0].id == id && rows[0].userId == user then DeleteCategoryRows(rows[1..], id, user)
    else [rows[0]] + DeleteCategoryRows(rows[1..], id, user)
  }

  /** `delete().eq('id', id).eq('user_id', user)` on the transactions table. */
  function DeleteTransactionRows(rows: seq<Transaction>, id: string, user: string): (r: seq<Transaction>)
    ensures |r| <= |rows|
    ensures forall t :: t in r <==> t in rows && !(t.id == id && t.userId == user)
  {
    if rows == [] then []
    else if rows[0].id == id && rows[0].userId == user then DeleteTransactionRows(rows[1..], id, user)
    else [rows[0]] + DeleteTransactionRows(rows[1..], id, user)
  }

  /** `select('*').eq('user_id', user)` on the categories table. */
  function UserCategories(rows: seq<Category>, user: string): (r: seq<Category>)
    ensures forall c :: c in r <==> c in rows && c.userId == user
  {
    if rows == [] then []
    else (if rows[0].userId == user then [rows[0]] else []) + UserCategories(rows[1..], user)
  }

  /** `select('*').eq('user_id', user).eq('type', kind)`: the picker's list. */
  function UserCategoriesOfType(rows: seq<Category>, user: string, kind: TxType): (r: seq<Category>)
    ensures forall c :: c in r <==> c in rows && c.userId == user && c.kind == kind
  {
    if rows == [] then []
    else
      var head := if rows[0].userId == user && rows[0].kind == kind then [rows[0]] else [];
      head + UserCategoriesOfType(rows[1..], user, kind)
  }

  /** The backend's tables. */
  class Tables {
    var transactions: seq<Transaction>
    var categories: seq<Category>

    constructor (txs: seq<Transaction>, cats: seq<Category>)
      ensures transactions == txs && categories == cats
    {
      transactions := txs;
      categories := cats;
    }

    method InsertTransaction(row: Transaction)
      modifies this
      ensures transactions == old(transactions) + [row] && categories == old(categories)
    {
      transactions := transactions + [row];
    }

    method DeleteTransaction(id: string, user: string)
      modifies this
      ensures transactions == DeleteTransactionRows(old(transactions), id, user)
      ensures categories == old(categories)
    {
      transactions := DeleteTransactionRows(transactions, id, user);
    }

    method RenameTransactionsCategory(oldName: string, newName: string, user: string)
      modifies this
      ensures transactions == RenameCategoryRows(old(transactions), oldName, newName, user)
      ensures categories == old(categories)
    {
      transactions := RenameCategoryRows(transactions, oldName, newName, user);
    }

    method InsertCategory(row: Category)
      modifies this
      ensures categories == old(categories) + [row] && transactions == old(transactions)
    {
      categories := categories + [row];
    }

    method UpdateCategory(id: string, user: string, name: string, icon: string, kind: TxType)
      modifies this
      ensures categories == UpdateCategoryRows(old(categories), id, user, name, icon, kind)
      ensures transactions == old(transactions)
    {
      categories := UpdateCategoryRows(categories, id, user, name, icon, kind);
    }

    method DeleteCategory(id: string, user: string)
      modifies this
      ensures categories == DeleteCategoryRows(old(categories), id, user)
      ensures transactions == old(transactions)
    {
      categories := DeleteCategoryRows(categories, id, user);
    }
  }
}
