/**
 * The decision logic of the database admin view
 * (components/DatabaseView.tsx): cleaning the proxy URL and testing the
 * connection, the column list of a table, the automatic CSV field mapping,
 * and the guarded column changes. Rendering, the console, status messages
 * and browser dialogs are not modelled; a confirmation dialog's answer is
 * a parameter.
 */
module DatabaseView {
  import opened Wrappers
  import opened Json
  import opened DbModel
  import opened DbService

  // ---------------------------------------------------------------------
  // Proxy URL cleaning

  /** The characters `String.prototype.trim` removes: white space and line terminators. */
  const JsSpaces: set<char> := {
    '\t', '\n', '\U{000B}', '\U{000C}', '\r', ' ', '\U{00A0}', '\U{1680}',
    '\U{2000}', '\U{2001}', '\U{2002}', '\U{2003}', '\U{2004}', '\U{2005}', '\U{2006}',
    '\U{2007}', '\U{2008}', '\U{2009}', '\U{200A}', '\U{2028}', '\U{2029}', '\U{202F}',
    '\U{205F}', '\U{3000}', '\U{FEFF}'}

  predicate IsJsSpace(c: char)
  {
    c in JsSpaces
  }

  /** The first position at or after `i` that is not white space, or the end. */
  function SkipSpaces(s: string, i: nat): (n: nat)
    requires i <= |s|
    ensures i <= n <= |s|
    ensures forall k :: i <= k < n ==> IsJsSpace(s[k])
    ensures n < |s| ==> !IsJsSpace(s[n])
    decreases |s| - i
  {
    if i < |s| && IsJsSpace(s[i]) then SkipSpaces(s, i + 1) else i
  }

  /** The end of `s[lo..j]` once its trailing white space is cut. */
  function CutSpaces(s: string, lo: nat, j: nat): (m: nat)
    requires lo <= j <= |s|
    ensures lo <= m <= j
    ensures forall k :: m <= k < j ==> IsJsSpace(s[k])
    ensures m > lo ==> !IsJsSpace(s[m - 1])
    decreases j
  {
    if j > lo && IsJsSpace(s[j - 1]) then CutSpaces(s, lo, j - 1) else j
  }

  /** `trim()`. */
  function Trim(s: string): string
  {
    var i := SkipSpaces(s, 0);
    s[i..CutSpaces(s, i, |s|)]
  }

  /**
   * The trimmed string is the part of the string between its leading and its
   * trailing white space: whenever `s[i..j]` starts and ends with something
   * other than white space (or is empty) and only white space lies outside
   * it, that is what `trim()` gives.
   */
  lemma TrimIsCore(s: string, i: nat, j: nat)
    requires i <= j <= |s|
    requires forall k :: 0 <= k < i ==> IsJsSpace(s[k])
    requires forall k :: j <= k < |s| ==> IsJsSpace(s[k])
    requires i < j ==> !IsJsSpace(s[i]) && !IsJsSpace(s[j - 1])
    ensures Trim(s) == s[i..j]
  {
    if i < j {
      SkipSpacesAt(s, 0, i);
      CutSpacesAt(s, i, |s|, j);
    } else {
      SkipSpacesAt(s, 0, |s|);
    }
  }

  /** `SkipSpaces` stops at the first character that is not white space. */
  lemma {:induction false} SkipSpacesAt(s: string, i: nat, p: nat)
    requires i <= p <= |s|
    requires forall k :: i <= k < p ==> IsJsSpace(s[k])
    requires p < |s| ==> !IsJsSpace(s[p])
    ensures SkipSpaces(s, i) == p
    decreases p - i
  {
    if i < p {
      SkipSpacesAt(s, i + 1, p);
    }
  }

  /** `CutSpaces` stops just after the last character that is not white space. */
  lemma {:induction false} CutSpacesAt(s: string, lo: nat, j: nat, m: nat)
    requires lo <= m <= j <= |s|
    requires forall k :: m <= k < j ==> IsJsSpace(s[k])
    requires m > lo ==> !IsJsSpace(s[m - 1])
    ensures CutSpaces(s, lo, j) == m
    decreases j - m
  {
    if m < j {
      CutSpacesAt(s, lo, j - 1, m);
    }
  }

  /** A string that starts and ends with something other than white space is its own trim. */
  lemma TrimKeepsClean(s: string)
    requires |s| > 0 ==> !IsJsSpace(s[0]) && !IsJsSpace(s[|s| - 1])
    ensures Trim(s) == s
  {
    SkipSpacesAt(s, 0, 0);
    CutSpacesAt(s, 0, |s|, |s|);
  }

  /** `proxyUrl.trim().replace(/\/$/, "")`: trim, then drop one trailing slash. */
  function CleanUrl(url: string): (r: string)
    ensures var t := Trim(url);
      if |t| > 0 && t[|t| - 1] == '/' then r + "/" == t else r == t
  {
    var t := Trim(url);
    if |t| > 0 && t[|t| - 1] == '/' then t[..|t| - 1] else t
  }

  /** Only one slash goes: a URL ending in two keeps one. */
  lemma CleanUrlDropsOneSlash(url: string)
    requires |url| > 0 ==> !IsJsSpace(url[0])
    ensures CleanUrl(url + "//") == url + "/"
  {
    var s := url + "//";
    TrimKeepsClean(s);
    assert s[..|s| - 1] == url + "/";
  }

  /**
   * A URL made only of white space cleans to the empty string, and so does
   * one that is just a slash with white space around it.
   */
  lemma CleanUrlOfBlank(url: string)
    requires forall k :: 0 <= k < |url| ==> IsJsSpace(url[k])
    ensures CleanUrl(url) == "" && CleanUrl(url + "/" + url) == ""
  {
    SkipSpacesAt(url, 0, |url|);
    var u := url + "/" + url;
    SkipSpacesAt(u, 0, |url|);
    CutSpacesAt(u, |url|, |u|, |url| + 1);
    assert Trim(u) == "/";
  }

  // ---------------------------------------------------------------------
  // Connection test

  datatype ConnectionTest = MissingProxyUrl | Connected | ConnectFailed(error: Error)

  /**
   * handleTestCloudConnection, given the configuration in the form: refuse
   * an empty URL; otherwise store the configuration with the cleaned URL,
   * send `SELECT 1`, and only when that succeeds store it again as active.
   * Returns the configuration the form shows afterwards.
   */
  method HandleTestCloudConnection(db: DBService, form: CloudSqlConfig) returns (shown: CloudSqlConfig, t: ConnectionTest)
    modifies db`cloudSqlConfig, db`store, db`replies, db`trace
    ensures form.proxyUrl == "" ==>
      && t == MissingProxyUrl && shown == form
      && db.Current() == old(db.Current()) && db.store == old(db.store)
      && db.replies == old(db.replies) && db.trace == old(db.trace)
    ensures form.proxyUrl != "" ==>
      var synced := form.(proxyUrl := CleanUrl(form.proxyUrl));
      var sent := synced.proxyUrl != "";
      && (t == Connected <==> sent && |old(db.replies)| > 0 && old(db.replies)[0].Rows?)
      && (t != Connected ==> t == ConnectFailed(if sent then Answer(old(db.replies)).error else NoProxyUrl))
      && shown == (if t == Connected then synced.(isActive := true) else synced)
      && db.Current() == old(db.Current()).(cloud := shown)
      && db.store == old(db.store) + Snapshot(db.Current())
      && db.replies == (if sent then Rest(old(db.replies)) else old(db.replies))
      && db.trace == old(db.trace) + [Committed(old(db.Current()).(cloud := synced))]
                     + (if sent then [Issued(Request(SelectOne, synced))] else [])
                     + (if t == Connected then [Committed(db.Current())] else [])
  {
    if form.proxyUrl == "" {
      return form, MissingProxyUrl;
    }
    var synced := form.(proxyUrl := CleanUrl(form.proxyUrl));
    db.SaveCloudSqlConfig(synced);
    shown, t := ConfirmConnection(db, synced);
    if t == Connected {
      SnapshotOverwrites(old(db.store), old(db.Current()).(cloud := synced), db.Current());
    }
  }

  /**
   * The part of handleTestCloudConnection after the cleaned configuration
   * is stored: `SELECT 1`, and on success the configuration again, active.
   */
  method ConfirmConnection(db: DBService, synced: CloudSqlConfig) returns (shown: CloudSqlConfig, t: ConnectionTest)
    requires db.cloudSqlConfig == synced
    modifies db`cloudSqlConfig, db`store, db`replies, db`trace
    ensures var sent := synced.proxyUrl != "";
      && (t == Connected <==> sent && |old(db.replies)| > 0 && old(db.replies)[0].Rows?)
      && (t != Connected ==> t == ConnectFailed(if sent then Answer(old(db.replies)).error else NoProxyUrl))
      && shown == (if t == Connected then synced.(isActive := true) else synced)
      && db.Current() == old(db.Current()).(cloud := shown)
      && db.store == (if t == Connected then old(db.store) + Snapshot(db.Current()) else old(db.store))
      && db.replies == (if sent then Rest(old(db.replies)) else old(db.replies))
      && db.trace == old(db.trace) + (if sent then [Issued(Request(SelectOne, synced))] else [])
                     + (if t == Connected then [Committed(db.Current())] else [])
  {
    var r := db.ExecuteSql(SelectOne);
    if r.Ok? {
      shown := synced.(isActive := true);
      db.SaveCloudSqlConfig(shown);
      t := Connected;
    } else {
      shown := synced;
      t := ConnectFailed(r.error);
    }
  }

  // ---------------------------------------------------------------------
  // Columns and the CSV field mapping

  /** getTableColumns: the fields of the first row, none without rows. */
  function TableColumns(rows: seq<Row>): (cols: set<string>)
    ensures |rows| == 0 ==> cols == {}
    ensures |rows| > 0 ==> forall f :: f in cols <==> f in rows[0]
  {
    if |rows| > 0 then rows[0].Keys else {}
  }

  /** The column list follows alterTable's changes to the rows. */
  lemma ColumnsAfterAlter(rows: seq<Row>, field: string)
    ensures |rows| > 0 ==> TableColumns(AlterRows(rows, AddColumn, field)) == TableColumns(rows) + {field}
    ensures TableColumns(AlterRows(rows, DropColumn, field)) == TableColumns(rows) - {field}
  {
    if |rows| > 0 {
      AddColumnSetsEmpty(rows, field);
      DropColumnRemoves(rows, field);
      var added := AlterRows(rows, AddColumn, field);
      assert added[0] == rows[0][field := JStr("")];
    }
  }

  /**
   * The automatic mapping of handleFileUpload: every field of the first row
   * that is also a CSV header maps to itself.
   */
  method AutoMapFields(tableData: seq<Row>, headers: seq<string>) returns (mapping: map<string, string>)
    ensures forall f :: f in mapping <==> f in TableColumns(tableData) && f in headers
    ensures forall f :: f in mapping ==> mapping[f] == f
  {
    mapping := map[];
    if |tableData| > 0 {
      var fields := tableData[0].Keys;
      var todo := fields;
      while todo != {}
        invariant todo <= fields
        invariant forall f :: f in mapping <==> f in fields - todo && f in headers
        invariant forall f :: f in mapping ==> mapping[f] == f
        decreases |todo|
      {
        var f :| f in todo;
        if f in headers {
          mapping := mapping[f := f];
        }
        todo := todo - {f};
      }
    }
  }

  // ---------------------------------------------------------------------
  // Guarded column changes

  /**
   * handleAddColumn: nothing happens for an empty name. Otherwise the
   * column is added through alterTable; when that succeeds the name field
   * is cleared and the table reloaded, when it fails the error escapes and
   * the view keeps what it showed.
   */
  method HandleAddColumn(db: DBService, activeTable: string, newColumnName: string, shown: seq<Row>)
    returns (nameAfter: string, shownAfter: seq<Row>, o: Outcome)
    modifies db`users, db`projects, db`store, db`replies, db`trace
    ensures newColumnName == "" ==>
      && nameAfter == "" && shownAfter == shown && o == Pass
      && db.Current() == old(db.Current()) && db.store == old(db.store)
      && db.replies == old(db.replies) && db.trace == old(db.trace)
    ensures newColumnName != "" ==>
      && db.AlterDone(activeTable, AddColumn, newColumnName, o)
      && db.Current() == (if HasInternalName(activeTable)
                          then Altered(old(db.Current()), activeTable, AddColumn, newColumnName)
                          else old(db.Current()))
      && (o.Pass? ==> nameAfter == "" && shownAfter == TableData(db.Current(), activeTable))
      && (o.Fail? ==> nameAfter == newColumnName && shownAfter == shown)
  {
    if newColumnName == "" {
      return newColumnName, shown, Pass;
    }
    o := db.AlterTable(activeTable, AddColumn, newColumnName);
    if o.Fail? {
      return newColumnName, shown, o;
    }
    nameAfter := "";
    shownAfter := db.GetTableData(activeTable);
  }

  /**
   * handleDropColumn: nothing happens unless the user confirms. Otherwise
   * the column is dropped through alterTable and, when that succeeds, the
   * table reloaded.
   */
  method HandleDropColumn(db: DBService, activeTable: string, colName: string, confirmed: bool, shown: seq<Row>)
    returns (shownAfter: seq<Row>, o: Outcome)
    modifies db`users, db`projects, db`store, db`replies, db`trace
    ensures !confirmed ==>
      && shownAfter == shown && o == Pass
      && db.Current() == old(db.Current()) && db.store == old(db.store)
      && db.replies == old(db.replies) && db.trace == old(db.trace)
    ensures confirmed ==>
      && db.AlterDone(activeTable, DropColumn, colName, o)
      && db.Current() == (if HasInternalName(activeTable)
                          then Altered(old(db.Current()), activeTable, DropColumn, colName)
                          else old(db.Current()))
      && (o.Pass? ==> shownAfter == TableData(db.Current(), activeTable))
      && (o.Fail? ==> shownAfter == shown)
  {
    if !confirmed {
      return shown, Pass;
    }
    o := db.AlterTable(activeTable, DropColumn, colName);
    if o.Fail? {
      return shown, o;
    }
    shownAfter := db.GetTableData(activeTable);
  }
}
