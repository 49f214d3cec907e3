/** The `workspace` table of convex/workspace.ts and its queries and
    mutations. The table is a map from document id to record, with the
    record shape of convex/schema.ts; the id the engine assigns on insert is
    the parameter `freshId`, and an error the engine throws on delete is the
    parameter `engineError`. */
module Workspace {
  import opened Wrappers
  import opened Json

  datatype Workspace = Workspace(messages: Json, fileData: Option<Json>, userToken: Option<string>)

  /** The value `DeleteWorkspace` returns: `{ success }` or `{ success, error }`. */
  datatype DeleteResult = DeleteResult(success: bool, error: Option<string>)

  /** The records a user token owns: none for a falsy token, otherwise
      exactly those whose token equals it. */
  function OwnedBy(rows: map<string, Workspace>, token: Option<string>): (r: map<string, Workspace>)
    ensures !Truthy(token) ==> r == map[]
    ensures Truthy(token) ==> forall id :: id in r <==> id in rows && rows[id].userToken == token
    ensures forall id :: id in r ==> r[id] == rows[id]
  {
    if !Truthy(token) then map[]
    else map id | id in rows && rows[id].userToken == token :: rows[id]
  }

  /** Inserting a record adds it to its own token's listing and to no other. */
  lemma OwnedByInsert(rows: map<string, Workspace>, id: string, w: Workspace, token: Option<string>)
    requires id !in rows
    ensures Truthy(token) && token == w.userToken ==> OwnedBy(rows[id := w], token) == OwnedBy(rows, token)[id := w]
    ensures token != w.userToken ==> OwnedBy(rows[id := w], token) == OwnedBy(rows, token)
  {
    var after := OwnedBy(rows[id := w], token);
    if Truthy(token) && token == w.userToken {
      assert after.Keys == OwnedBy(rows, token).Keys + {id};
    } else if token != w.userToken {
      assert after.Keys == OwnedBy(rows, token).Keys;
    }
  }

  /** Listings for two different tokens never share a record. */
  lemma OwnedByDisjoint(rows: map<string, Workspace>, t1: Option<string>, t2: Option<string>)
    requires t1 != t2
    ensures OwnedBy(rows, t1).Keys !! OwnedBy(rows, t2).Keys
  {
  }

  class WorkspaceTable {
    var rows: map<string, Workspace>

    constructor ()
      ensures rows == map[]
    {
      rows := map[];
    }

    /** `CreateWorkspace`: one new record with the messages and the token and
        no file data; every other record is unchanged. */
    method CreateWorkspace(messages: Json, userToken: Option<string>, freshId: string) returns (id: string)
      requires freshId !in rows
      modifies this
      ensures id == freshId && id !in old(rows)
      ensures rows == old(rows)[id := Workspace(messages, None, userToken)]
      ensures GetWorkspace(id) == Some(Workspace(messages, None, userToken))
      ensures Truthy(userToken) ==> id in GetAllWorkspaces(userToken)
    {
      id := freshId;
      rows := rows[id := Workspace(messages, None, userToken)];
    }

    /** `GetAllWorkspaces`. */
    function GetAllWorkspaces(userToken: Option<string>): map<string, Workspace>
      reads this
    {
      OwnedBy(rows, userToken)
    }

    /** `GetWorkspace`: the record, or null. */
    function GetWorkspace(id: string): (r: Option<Workspace>)
      reads this
      ensures r.Some? <==> id in rows
      ensures r.Some? ==> r.value == rows[id]
    {
      if id in rows then Some(rows[id]) else None
    }

    /** `UpdateWorkspace`: a missing id changes nothing; otherwise only that
        record's messages change. */
    method UpdateWorkspace(id: string, messages: Json)
      modifies this
      ensures id !in old(rows) ==> rows == old(rows)
      ensures id in old(rows) ==> rows == old(rows)[id := old(rows)[id].(messages := messages)]
      ensures rows.Keys == old(rows).Keys
    {
      if id !in rows {
        return;
      }
      rows := rows[id := rows[id].(messages := messages)];
    }

    /** `UpdateFiles`: a missing id changes nothing; otherwise only that
        record's file data changes. */
    method UpdateFiles(id: string, files: Json)
      modifies this
      ensures id !in old(rows) ==> rows == old(rows)
      ensures id in old(rows) ==> rows == old(rows)[id := old(rows)[id].(fileData := Some(files))]
      ensures rows.Keys == old(rows).Keys
    {
      if id !in rows {
        return;
      }
      rows := rows[id := rows[id].(fileData := Some(files))];
    }

    /** `DeleteWorkspace`: the record goes and success is reported; when the
        engine throws, nothing changes and its message is reported. */
    method DeleteWorkspace(id: string, engineError: Option<string>) returns (r: DeleteResult)
      modifies this
      ensures engineError.None? ==> rows == old(rows) - {id} && r == DeleteResult(true, None)
      ensures engineError.None? ==> GetWorkspace(id).None?
      ensures engineError.Some? ==> rows == old(rows) && r == DeleteResult(false, engineError)
    {
      if engineError.Some? {
        return DeleteResult(false, engineError);
      }
      rows := rows - {id};
      r := DeleteResult(true, None);
    }
  }
}
