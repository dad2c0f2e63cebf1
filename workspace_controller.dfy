/**
 * The workspace controller (app/controllers/workspace.py): registering
 * datasets in a workspace and looking workspaces and their datasets up.
 *
 * The dataset and workspace repositories are abstract maps: datasets by an
 * auto-incremented id, workspaces by id, and the workspace-dataset links in
 * the order they were made.
 */
module WorkspaceControllerModel {
  import opened PyValues

  /** A record as the database returns it: its fields in column order. */
  type Record = seq<(string, Value)>

  function Keys(r: Record): (keys: seq<string>)
    ensures |keys| == |r| && forall i :: 0 <= i < |r| ==> keys[i] == r[i].0
  {
    if r == [] then [] else [r[0].0] + Keys(r[1..])
  }

  function Values(r: Record): (values: seq<Value>)
    ensures |values| == |r| && forall i :: 0 <= i < |r| ==> values[i] == r[i].1
  {
    if r == [] then [] else [r[0].1] + Values(r[1..])
  }

  function Min(a: nat, b: nat): nat
  {
    if a <= b then a else b
  }

  /** The rows of the head: the value lists of the first `min(5, n)` records, as `rows` holds them. */
  function HeadRows(records: seq<Record>): (rows: seq<Value>)
    ensures |rows| == Min(5, |records|)
    ensures forall i :: 0 <= i < |rows| ==> rows[i] == List(Values(records[i]))
  {
    seq(Min(5, |records|), i requires 0 <= i < Min(5, |records|) => List(Values(records[i])))
  }

  function StrList(keys: seq<string>): (r: seq<Value>)
    ensures |r| == |keys| && forall i :: 0 <= i < |keys| ==> r[i] == Str(keys[i])
  {
    seq(|keys|, i requires 0 <= i < |keys| => Str(keys[i]))
  }

  /** The `head` of `add_datasets_from_db`: the first record's keys and at most five rows. */
  function Head(records: seq<Record>): (r: Value)
    requires records != []
    ensures r.Dict? && r.entries.Keys == {"headers", "rows"}
    ensures r.entries["headers"] == List(StrList(Keys(records[0])))
    ensures r.entries["rows"] == List(HeadRows(records))
  {
    Dict(map["headers" := List(StrList(Keys(records[0]))), "rows" := List(HeadRows(records))])
  }

  /** The head sees only the first five records. */
  lemma HeadOnlyFirstFive(records: seq<Record>, more: seq<Record>)
    requires records != []
    ensures Head(records) == Head(records[..Min(5, |records|)])
    ensures |records| >= 5 ==> Head(records + more) == Head(records)
  {
    var short := records[..Min(5, |records|)];
    assert HeadRows(records) == HeadRows(short);
    if |records| >= 5 {
      assert (records + more)[0] == records[0];
      assert HeadRows(records + more) == HeadRows(records);
    }
  }

  /** Each row of the head has one value per field of its record, in order. */
  lemma HeadRowShape(records: seq<Record>, i: nat)
    requires records != [] && i < Min(5, |records|)
    ensures var row := Head(records).entries["rows"].items[i];
      row.List? && |row.items| == |records[i]| && forall j :: 0 <= j < |records[i]| ==> row.items[j] == records[i][j].1
  {
  }

  datatype ConnectorType = CSV | POSTGRES

  /** A stored dataset. */
  datatype DatasetRecord = DatasetRecord(
    userId: string,
    organizationId: string,
    name: Value,
    tableName: Option<string>,
    description: Option<string>,
    connectorType: ConnectorType,
    config: map<string, Value>,
    head: Value)

  datatype Membership = Membership(organizationId: string)

  datatype User = User(id: string, memberships: seq<Membership>)

  datatype Workspace = Workspace(id: string, name: string)

  /** An HTTP error response. */
  datatype HttpException = HttpException(status: nat, detail: string)

  datatype Reply<+T> = Success(value: T) | Failure(error: HttpException)

  const NotFound: nat := 404

  const IndexOutOfRange: Exc := Exc(Other("IndexError"), "list index out of range")

  /** `user.memberships[0].organization_id`. */
  function OrganizationOf(user: User): (r: Result<string>)
    ensures r.Ok? <==> user.memberships != []
    ensures r.Ok? ==> r.value == user.memberships[0].organizationId
    ensures r.Err? ==> r.error == IndexOutOfRange
  {
    if user.memberships == [] then Err(IndexOutOfRange) else Ok(user.memberships[0].organizationId)
  }

  const DbDatasetName: string := "loan_payments_data"

  /** The one dataset `add_datasets_from_db` creates for a non-empty list of records. */
  function DbDataset(records: seq<Record>, user: User): (r: Result<DatasetRecord>)
    requires records != []
    ensures r.Ok? <==> user.memberships != []
    ensures r.Err? ==> r.error == IndexOutOfRange
    ensures r.Ok? ==>
      && r.value.name == Str(DbDatasetName) && r.value.tableName == Some(DbDatasetName)
      && r.value.description == Some("Dataset from PostgreSQL")
      && r.value.connectorType == POSTGRES
      && r.value.config == map["query" := Str("SELECT * FROM loan_payments_data")]
      && r.value.head == Head(records)
      && r.value.userId == user.id && r.value.organizationId == user.memberships[0].organizationId
  {
    var head := Head(records);
    var config := map["query" := Str("SELECT * FROM loan_payments_data")];
    match OrganizationOf(user)
    case Err(e) => Err(e)
    case Ok(org) =>
      Ok(DatasetRecord(user.id, org, Str(DbDatasetName), Some(DbDatasetName), Some("Dataset from PostgreSQL"),
                       POSTGRES, config, head))
  }

  /**
   * The dataset `add_csv_datasets` creates for one input dict, its arguments
   * evaluated in the order Python evaluates them: the organisation, then
   * `file_name`, `file_path`, `file_name` (for the config) and `head`.
   */
  function CsvDataset(item: map<string, Value>, user: User): (r: Result<DatasetRecord>)
    ensures r.Ok? <==> user.memberships != [] && "file_name" in item && "file_path" in item && "head" in item
    ensures user.memberships == [] ==> r == Err(IndexOutOfRange)
    ensures user.memberships != [] && "file_name" !in item ==> r == Err(MissingKey("file_name"))
    ensures user.memberships != [] && "file_name" in item && "file_path" !in item ==> r == Err(MissingKey("file_path"))
    ensures user.memberships != [] && "file_name" in item && "file_path" in item && "head" !in item ==>
      r == Err(MissingKey("head"))
    ensures r.Ok? ==>
      && r.value.config.Keys == {"file_path", "file_name"}
      && r.value.config["file_path"] == item["file_path"] && r.value.config["file_name"] == item["file_name"]
      && r.value.connectorType == CSV && r.value.head == item["head"]
      && r.value.userId == user.id && r.value.organizationId == user.memberships[0].organizationId
      && r.value.name == item["file_name"]
  {
    match OrganizationOf(user)
    case Err(e) => Err(e)
    case Ok(org) =>
      if "file_name" !in item then Err(MissingKey("file_name"))
      else if "file_path" !in item then Err(MissingKey("file_path"))
      else if "head" !in item then Err(MissingKey("head"))
      else
        var config := map["file_path" := item["file_path"], "file_name" := item["file_name"]];
        Ok(DatasetRecord(user.id, org, item["file_name"], None, None, CSV, config, item["head"]))
  }

  /** The datasets linked to a workspace, in link order. */
  function DatasetsIn(links: seq<(nat, string)>, datasets: map<nat, DatasetRecord>, workspaceId: string): seq<DatasetRecord>
    requires forall k :: 0 <= k < |links| ==> links[k].0 in datasets
  {
    if links == [] then []
    else
      var last := links[|links| - 1];
      DatasetsIn(links[..|links| - 1], datasets, workspaceId) + (if last.1 == workspaceId then [datasets[last.0]] else [])
  }

  /**
   * Linking a new dataset to a workspace adds it at the end of that workspace's
   * list and leaves every other workspace's list alone.
   */
  lemma {:induction false} DatasetsInLink(links: seq<(nat, string)>, datasets: map<nat, DatasetRecord>,
                                          id: nat, rec: DatasetRecord, linkedTo: string, workspaceId: string)
    requires forall k :: 0 <= k < |links| ==> links[k].0 in datasets && links[k].0 != id
    ensures var datasets' := datasets[id := rec];
      var links' := links + [(id, linkedTo)];
      && (forall k :: 0 <= k < |links'| ==> links'[k].0 in datasets')
      && DatasetsIn(links', datasets', workspaceId)
         == DatasetsIn(links, datasets, workspaceId) + (if linkedTo == workspaceId then [rec] else [])
  {
    var datasets' := datasets[id := rec];
    var links' := links + [(id, linkedTo)];
    assert links'[..|links'| - 1] == links;
    DatasetsInUnchanged(links, datasets, datasets', workspaceId);
  }

  lemma {:induction false} DatasetsInUnchanged(links: seq<(nat, string)>, datasets: map<nat, DatasetRecord>,
                                               datasets': map<nat, DatasetRecord>, workspaceId: string)
    requires forall k :: 0 <= k < |links| ==> links[k].0 in datasets && links[k].0 in datasets'
                                              && datasets'[links[k].0] == datasets[links[k].0]
    ensures DatasetsIn(links, datasets', workspaceId) == DatasetsIn(links, datasets, workspaceId)
  {
    if links != [] {
      DatasetsInUnchanged(links[..|links| - 1], datasets, datasets', workspaceId);
    }
  }

  class WorkspaceController {
    /** The workspace repository's workspaces. */
    const workspaces: map<string, Workspace>
    /** The dataset repository: datasets by id. */
    var datasets: map<nat, DatasetRecord>
    /** The id the next created dataset gets. */
    var nextId: nat
    /** `add_dataset_to_space` calls, in order: (dataset id, workspace id). */
    var links: seq<(nat, string)>

    /** Every stored id is below the next one, and every link names a stored dataset. */
    ghost predicate Valid()
      reads this
    {
      && (forall id :: id in datasets ==> id < nextId)
      && (forall k :: 0 <= k < |links| ==> links[k].0 in datasets)
    }

    /** The injected repositories, with whatever they already hold. */
    constructor (workspaces: map<string, Workspace>, datasets: map<nat, DatasetRecord>,
                 links: seq<(nat, string)>, nextId: nat)
      requires forall id :: id in datasets ==> id < nextId
      requires forall k :: 0 <= k < |links| ==> links[k].0 in datasets
      ensures Valid() && this.workspaces == workspaces && this.datasets == datasets
      ensures this.links == links && this.nextId == nextId
    {
      this.workspaces := workspaces;
      this.datasets := datasets;
      this.nextId := nextId;
      this.links := links;
    }

    /** `get_all_by_workspace_id`. */
    function DatasetsOf(workspaceId: string): seq<DatasetRecord>
      reads this
      requires Valid()
    {
      DatasetsIn(links, datasets, workspaceId)
    }

    /** `create_dataset` followed by `add_dataset_to_space`. */
    method CreateAndLink(rec: DatasetRecord, workspaceId: string) returns (id: nat)
      requires Valid()
      modifies this
      ensures Valid() && id == old(nextId) && nextId == id + 1 && id !in old(datasets)
      ensures datasets == old(datasets)[id := rec] && links == old(links) + [(id, workspaceId)]
      ensures forall w :: DatasetsOf(w) == old(DatasetsOf(w)) + (if w == workspaceId then [rec] else [])
    {
      id := nextId;
      forall w ensures DatasetsIn(links + [(id, workspaceId)], datasets[id := rec], w)
                       == DatasetsIn(links, datasets, w) + (if w == workspaceId then [rec] else [])
      {
        DatasetsInLink(links, datasets, id, rec, workspaceId, w);
      }
      datasets := datasets[id := rec];
      links := links + [(id, workspaceId)];
      nextId := nextId + 1;
    }

    /**
     * `add_csv_datasets`: one CSV dataset per input dict, created and linked in
     * order; the first dict that cannot be turned into a dataset stops the loop
     * with its exception, after the ones before it.
     */
    method AddCsvDatasets(items: seq<map<string, Value>>, user: User, workspaceId: string)
      returns (raised: Option<Exc>, ghost done: nat)
      requires Valid()
      modifies this
      ensures Valid()
      ensures done == FirstFailure(items, user)
      ensures raised.None? <==> done == |items|
      ensures raised.Some? ==> raised == Some(CsvDataset(items[done], user).error)
      ensures nextId == old(nextId) + done
      ensures DatasetsOf(workspaceId) == old(DatasetsOf(workspaceId)) + CsvRecords(items[..done], user)
      ensures forall w :: w != workspaceId ==> DatasetsOf(w) == old(DatasetsOf(w))
    {
      ghost var before := DatasetsOf(workspaceId);
      for i := 0 to |items|
        invariant Valid()
        invariant i <= FirstFailure(items, user)
        invariant nextId == old(nextId) + i
        invariant DatasetsOf(workspaceId) == before + CsvRecords(items[..i], user)
        invariant forall w :: w != workspaceId ==> DatasetsOf(w) == old(DatasetsOf(w))
      {
        var rec := CsvDataset(items[i], user);
        if rec.Err? {
          return Some(rec.error), i;
        }
        assert i + 1 <= FirstFailure(items, user);
        TakeOneMore(items, i);
        CsvRecordsAppend(items[..i], items[i], user);
        AppendAssoc(before, CsvRecords(items[..i], user), [rec.value]);
        var _ := CreateAndLink(rec.value, workspaceId);
      }
      assert items[..|items|] == items;
      raised, done := None, |items|;
    }

    /**
     * `add_datasets_from_db`: nothing for an empty list; otherwise exactly one
     * POSTGRES dataset named loan_payments_data, linked to the workspace.
     */
    method AddDatasetsFromDb(records: seq<Record>, user: User, workspaceId: string) returns (raised: Option<Exc>)
      requires Valid()
      modifies this
      ensures Valid()
      ensures records == [] ==> raised.None? && datasets == old(datasets) && links == old(links) && nextId == old(nextId)
      ensures records != [] && raised.Some? ==>
        raised == Some(IndexOutOfRange) && user.memberships == []
        && datasets == old(datasets) && links == old(links) && nextId == old(nextId)
      ensures records != [] && raised.None? ==>
        && user.memberships != []
        && nextId == old(nextId) + 1
        && datasets == old(datasets)[old(nextId) := DbDataset(records, user).value]
        && links == old(links) + [(old(nextId), workspaceId)]
        && DatasetsOf(workspaceId) == old(DatasetsOf(workspaceId)) + [DbDataset(records, user).value]
      ensures records != [] ==> (raised.None? <==> user.memberships != [])
    {
      if records == [] {
        return None;
      }
      var rec := DbDataset(records, user);
      if rec.Err? {
        return Some(rec.error);
      }
      var _ := CreateAndLink(rec.value, workspaceId);
      raised := None;
    }

    /** `get_workspace_by_id`. */
    function GetWorkspaceById(workspaceId: string): (r: Reply<Workspace>)
      reads this
      ensures r.Success? <==> workspaceId in workspaces
      ensures r.Success? ==> r.value == workspaces[workspaceId]
      ensures r.Failure? ==> r.error == HttpException(NotFound, "Workspace with id: " + workspaceId + " was not found")
    {
      if workspaceId in workspaces then Success(workspaces[workspaceId])
      else Failure(HttpException(NotFound, "Workspace with id: " + workspaceId + " was not found"))
    }

    /** `get_workspace_datasets`: the workspace must exist, then it must have datasets. */
    function GetWorkspaceDatasets(workspaceId: string): (r: Reply<seq<DatasetRecord>>)
      reads this
      requires Valid()
      ensures workspaceId !in workspaces ==> r == Failure(GetWorkspaceById(workspaceId).error)
      ensures workspaceId in workspaces && DatasetsOf(workspaceId) == [] ==>
        r == Failure(HttpException(NotFound, "No dataset found. Please restart the server and try again"))
      ensures r.Success? <==> workspaceId in workspaces && DatasetsOf(workspaceId) != []
      ensures r.Success? ==> r.value == DatasetsOf(workspaceId)
    {
      match GetWorkspaceById(workspaceId)
      case Failure(e) => Failure(e)
      case Success(_) =>
        var found := DatasetsOf(workspaceId);
        if found == [] then Failure(HttpException(NotFound, "No dataset found. Please restart the server and try again"))
        else Success(found)
    }
  }

  /** The records of a sequence of CSV inputs that all convert, in order. */
  function CsvRecords(items: seq<map<string, Value>>, user: User): seq<DatasetRecord>
  {
    if items == [] then []
    else
      var last := CsvDataset(items[|items| - 1], user);
      CsvRecords(items[..|items| - 1], user) + (if last.Ok? then [last.value] else [])
  }

  lemma CsvRecordsAppend(items: seq<map<string, Value>>, item: map<string, Value>, user: User)
    requires CsvDataset(item, user).Ok?
    ensures CsvRecords(items + [item], user) == CsvRecords(items, user) + [CsvDataset(item, user).value]
  {
    assert (items + [item])[..|items|] == items;
  }

  /** The position of the first input that does not convert, or the length when all do. */
  function FirstFailure(items: seq<map<string, Value>>, user: User): (n: nat)
    ensures n <= |items|
    ensures forall k :: 0 <= k < n ==> CsvDataset(items[k], user).Ok?
    ensures n < |items| ==> CsvDataset(items[n], user).Err?
  {
    if items == [] then 0
    else if CsvDataset(items[0], user).Err? then 0
    else 1 + FirstFailure(items[1..], user)
  }

  /**
   * On success there is one record per input, in order, each a CSV dataset
   * whose config holds exactly the file path and the file name of its input.
   */
  lemma {:induction false} CsvRecordsShape(items: seq<map<string, Value>>, user: User)
    requires forall k :: 0 <= k < |items| ==> CsvDataset(items[k], user).Ok?
    ensures |CsvRecords(items, user)| == |items|
    ensures forall k :: 0 <= k < |items| ==>
      && CsvRecords(items, user)[k] == CsvDataset(items[k], user).value
      && CsvRecords(items, user)[k].connectorType == CSV
      && CsvRecords(items, user)[k].config.Keys == {"file_path", "file_name"}
  {
    if items != [] {
      var init := items[..|items| - 1];
      assert forall k :: 0 <= k < |init| ==> init[k] == items[k];
      CsvRecordsShape(init, user);
    }
  }
}
