/** The name lookups of the relational storage layer
    (watchmen/common/mysql/mysql_table_definition.py): which table a name
    denotes, and which field is a record's unique key.

    Both lookups are `if`/`elif` chains on the name without an `else`. A chain
    is modelled as the list of its branches in source order, each the name it
    tests and the value it returns; the branch that runs is the first whose
    name matches, and a name no branch tests falls off the end (`None`). */
module TableDefinition {
  import opened Common

  /** A table declaration, reduced to its name and the column it declares
      with `primary_key=True`, if any. */
  datatype Table = Table(name: string, primaryKeyColumn: Option<string>)

  /** The branches of `get_table_by_name`, in source order, each with the
      table its declaration names; `pipeline_graph` is the one table without
      a primary-key column. */
  const TableBranches: seq<(string, Table)> := [
    ("users", Table("users", Some("userid"))),
    ("console_space_last_snapshot", Table("console_space_last_snapshot", Some("userid"))),
    ("console_dashboards", Table("console_dashboards", Some("dashboardid"))),
    ("topics", Table("topics", Some("topicid"))),
    ("enums", Table("enums", Some("enumid"))),
    ("spaces", Table("spaces", Some("spaceid"))),
    ("console_space_favorites", Table("console_space_favorites", Some("userid"))),
    ("console_space_graph", Table("console_space_graph", Some("connectid"))),
    ("console_spaces", Table("console_spaces", Some("spaceid"))),
    ("user_groups", Table("user_groups", Some("usergroupid"))),
    ("pipelines", Table("pipelines", Some("pipelineid"))),
    ("pipeline_graph", Table("pipeline_graph", None)),
    ("console_space_subjects", Table("console_space_subjects", Some("subjectid")))
  ]

  /** The branches of `get_primary_key`, in source order; the branch at
      position 10 tests the same name as the one at position 1. */
  const PrimaryKeyBranches: seq<(string, string)> := [
    ("topics", "topicId"),
    ("console_space_subjects", "subjectId"),
    ("pipelines", "pipelineId"),
    ("users", "userId"),
    ("console_dashboards", "dashboardId"),
    ("enums", "enumId"),
    ("pipeline_graph", "userId"),
    ("console_spaces", "connectId"),
    ("console_space_favorites", "userId"),
    ("spaces", "spaceId"),
    ("console_space_subjects", "subjectId"),
    ("console_reports", "reportId"),
    ("user_groups", "userGroupId")
  ]

  const TableNames: set<string> := {
    "users", "console_space_last_snapshot", "console_dashboards", "topics", "enums", "spaces",
    "console_space_favorites", "console_space_graph", "console_spaces", "user_groups", "pipelines",
    "pipeline_graph", "console_space_subjects"
  }

  const KeyedNames: set<string> := {
    "topics", "console_space_subjects", "pipelines", "users", "console_dashboards", "enums",
    "pipeline_graph", "console_spaces", "console_space_favorites", "spaces", "console_reports",
    "user_groups"
  }

  /** The position of the branch of the chain that runs for `name`, looking
      from position `i` on: the first that tests `name`. */
  function BranchTaken<V>(branches: seq<(string, V)>, name: string, i: nat): (r: Option<nat>)
    requires i <= |branches|
    ensures r.Some? ==> i <= r.value < |branches| && branches[r.value].0 == name
    decreases |branches| - i
  {
    if i == |branches| then None
    else if branches[i].0 == name then Some(i)
    else BranchTaken(branches, name, i + 1)
  }

  /** What the chain returns for `name`. */
  function Dispatch<V>(branches: seq<(string, V)>, name: string): Option<V>
  {
    match BranchTaken(branches, name, 0)
    case None => None
    case Some(j) => Some(branches[j].1)
  }

  /** The branch taken is the first that tests `name`, and none is taken
      exactly when no branch tests `name`. */
  lemma {:induction false} BranchTakenIsFirst<V>(branches: seq<(string, V)>, name: string, i: nat)
    requires i <= |branches|
    ensures var r := BranchTaken(branches, name, i);
      && (r.Some? ==> forall m :: i <= m < r.value ==> branches[m].0 != name)
      && (r.None? <==> forall m :: i <= m < |branches| ==> branches[m].0 != name)
    decreases |branches| - i
  {
    if i < |branches| && branches[i].0 != name {
      BranchTakenIsFirst(branches, name, i + 1);
    }
  }

  /** `get_table_by_name`: a table exactly for the thirteen declared names. */
  function GetTableByName(name: string): (r: Option<Table>)
    ensures r.Some? <==> name in TableNames
  {
    Dispatch(TableBranches, name)
  }

  /** The table `get_table_by_name` returns is always the one declared under
      the name asked for. */
  lemma TableNamedAsAsked(name: string)
    ensures GetTableByName(name).Some? ==> GetTableByName(name).value.name == name
  {
  }

  /** `get_primary_key`: a key field exactly for the twelve names its chain
      tests. */
  function GetPrimaryKey(name: string): (r: Option<string>)
    ensures r.Some? <==> name in KeyedNames
  {
    Dispatch(PrimaryKeyBranches, name)
  }

  /** The key fields of the topic, pipeline and connected-space records. */
  lemma KnownPrimaryKeys()
    ensures GetPrimaryKey("topics") == Some("topicId")
    ensures GetPrimaryKey("pipelines") == Some("pipelineId")
    ensures GetPrimaryKey("console_spaces") == Some("connectId")
    ensures GetPrimaryKey("console_space_subjects") == Some("subjectId")
  {
  }

  /** The second `console_space_subjects` branch never runs: the first one
      tests the same name and returns the same key. */
  lemma DuplicateBranchUnreachable(name: string)
    ensures PrimaryKeyBranches[10] == PrimaryKeyBranches[1]
    ensures BranchTaken(PrimaryKeyBranches, name, 0) != Some(10)
  {
    BranchTakenIsFirst(PrimaryKeyBranches, name, 0);
  }

  /** `get_primary_key` is not injective: three names share the key
      `userId`, and no other name maps to it. */
  lemma UserIdKeyShared(name: string)
    ensures GetPrimaryKey(name) == Some("userId") <==> name in {"users", "pipeline_graph", "console_space_favorites"}
  {
  }

  /** The two lookups disagree on their domains: two tables have no key
      field, and one key field has no table. */
  lemma LookupDomainsDisagree(name: string)
    ensures GetTableByName(name).Some? && GetPrimaryKey(name).None? <==>
      name == "console_space_last_snapshot" || name == "console_space_graph"
    ensures GetPrimaryKey(name).Some? && GetTableByName(name).None? <==> name == "console_reports"
  {
  }

  /** ASCII lower case of one character. */
  function LowerChar(c: char): char
  {
    if 'A' <= c <= 'Z' then (c - 'A' + 'a') as char else c
  }

  /** ASCII lower case of a name. */
  function Lower(s: string): (r: string)
    ensures |r| == |s|
    ensures forall i :: 0 <= i < |s| ==> r[i] == LowerChar(s[i])
  {
    seq(|s|, i requires 0 <= i < |s| => LowerChar(s[i]))
  }

  /** The key field, lower-cased, is the table's primary-key column. */
  predicate KeyMatchesColumn(name: string)
  {
    GetTableByName(name).Some? && GetPrimaryKey(name).Some? &&
    GetTableByName(name).value.primaryKeyColumn == Some(Lower(GetPrimaryKey(name).value))
  }

  /** The two names whose key field is not the primary-key column:
      `console_spaces` is keyed by `connectId` while its table's primary key
      is `spaceid`, and the `pipeline_graph` table declares no primary key. */
  lemma KeyMismatches()
    ensures GetPrimaryKey("console_spaces") == Some("connectId")
    ensures GetTableByName("console_spaces").value.primaryKeyColumn == Some("spaceid")
    ensures !KeyMatchesColumn("console_spaces")
    ensures GetPrimaryKey("pipeline_graph").Some? && GetTableByName("pipeline_graph").value.primaryKeyColumn.None?
    ensures !KeyMatchesColumn("pipeline_graph")
  {
  }

  /* The nine names whose key field matches, a few per lemma: each lemma
     unfolds both lookup chains for its own names only, which keeps every
     proof small. */
  lemma KeyMatchesForUsers()
    ensures KeyMatchesColumn("users") && KeyMatchesColumn("console_space_favorites")
  {
    assert Lower("userId") == "userid";
  }

  lemma KeyMatchesForGroups()
    ensures KeyMatchesColumn("user_groups") && KeyMatchesColumn("console_dashboards")
  {
    assert Lower("userGroupId") == "usergroupid";
    assert Lower("dashboardId") == "dashboardid";
  }

  lemma KeyMatchesForTopics()
    ensures KeyMatchesColumn("topics") && KeyMatchesColumn("enums")
  {
    assert Lower("topicId") == "topicid";
    assert Lower("enumId") == "enumid";
  }

  lemma KeyMatchesForPipelines()
    ensures KeyMatchesColumn("pipelines")
  {
    assert Lower("pipelineId") == "pipelineid";
  }

  lemma KeyMatchesForSpaces()
    ensures KeyMatchesColumn("spaces") && KeyMatchesColumn("console_space_subjects")
  {
    assert Lower("spaceId") == "spaceid";
    assert Lower("subjectId") == "subjectid";
  }

  /** Where both lookups answer, the key field, lower-cased, names the
      table's primary-key column, except for `console_spaces` and
      `pipeline_graph`. */
  lemma KeyMatchesColumnExceptTwo(name: string)
    requires GetTableByName(name).Some? && GetPrimaryKey(name).Some?
    ensures KeyMatchesColumn(name) <==> name != "console_spaces" && name != "pipeline_graph"
  {
    assert name in TableNames && name in KeyedNames;
    if name == "console_spaces" || name == "pipeline_graph" {
      KeyMismatches();
    } else if name == "users" || name == "console_space_favorites" {
      KeyMatchesForUsers();
    } else if name == "user_groups" || name == "console_dashboards" {
      KeyMatchesForGroups();
    } else if name == "topics" || name == "enums" {
      KeyMatchesForTopics();
    } else if name == "pipelines" {
      KeyMatchesForPipelines();
    } else {
      assert name == "spaces" || name == "console_space_subjects";
      KeyMatchesForSpaces();
    }
  }
}
