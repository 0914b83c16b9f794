/** One pass of the database access manager as it runs: it reads the state store, the user secret and
    the job, and then applies or cleans up the managed resources one call at a time. */
module DatabaseAccessManager {
  import opened Common
  import opened DatabaseScript
  import opened DatabaseAccess

  /** The resources managed for one access, in the order of `_populate_resources`. */
  datatype Resource =
    | ServiceAccount
    | ScriptSecret(script: Script)
    | UserSecret(conn: Conn)
    | PullSecret
    | ScriptJob(script: Script)

  /** The cluster, Vault and the state store as far as one access is concerned; `db` is the database. */
  class Platform {
    var account: bool
    var script: Option<Script>
    var user: Option<Conn>
    var pull: bool
    var job: Option<Job>
    var vault: Option<Conn>
    var store: Option<Def>
    ghost var db: Db

    constructor (db: Db)
      ensures Contents() == World(db, false, None, None, false, None, None, None)
    {
      account, script, user, pull, job, vault, store := false, None, None, false, None, None, None;
      this.db := db;
    }

    ghost function Contents(): World
      reads this
    {
      World(db, account, script, user, pull, job, vault, store)
    }

    /** `openshift_base.apply` for one resource. */
    method Apply(r: Resource)
      modifies this
      ensures db == old(db) && vault == old(vault) && store == old(store)
      ensures account == (r.ServiceAccount? || old(account)) && pull == (r.PullSecret? || old(pull))
      ensures script == if r.ScriptSecret? then Some(r.script) else old(script)
      ensures user == if r.UserSecret? then Some(r.conn) else old(user)
      ensures job == if r.ScriptJob? then Some(Job(r.script, Active)) else old(job)
    {
      match r {
        case ServiceAccount => account := true;
        case ScriptSecret(s) => script := Some(s);
        case UserSecret(conn) => user := Some(conn);
        case PullSecret => pull := true;
        case ScriptJob(s) => job := Some(Job(s, Active));
      }
    }

    /** `openshift_base.delete` for one resource; it raises when the resource is not found. */
    method Delete(r: Resource) returns (found: bool)
      modifies this
      ensures db == old(db) && vault == old(vault) && store == old(store)
      ensures found == match r
        case ServiceAccount => old(account)
        case ScriptSecret(_) => old(script).Some?
        case UserSecret(_) => old(user).Some?
        case PullSecret => old(pull)
        case ScriptJob(_) => old(job).Some?
      ensures account == (!r.ServiceAccount? && old(account)) && pull == (!r.PullSecret? && old(pull))
      ensures script == if r.ScriptSecret? then None else old(script)
      ensures user == if r.UserSecret? then None else old(user)
      ensures job == if r.ScriptJob? then None else old(job)
    {
      match r {
        case ServiceAccount => found, account := account, false;
        case ScriptSecret(_) => found, script := script.Some?, None;
        case UserSecret(_) => found, user := user.Some?, None;
        case PullSecret => found, pull := pull, false;
        case ScriptJob(_) => found, job := job.Some?, None;
      }
    }

    /** The apply loop for a missing job; it is stopped after `calls` calls. */
    method ApplyResources(s: Script, conn: Conn, calls: nat)
      modifies this
      ensures Contents() == Applied(old(Contents()), s, conn, calls)
    {
      var resources := [ServiceAccount, ScriptSecret(s), UserSecret(conn), PullSecret, ScriptJob(s)];
      ghost var before := Contents();
      for k := 0 to |resources|
        invariant k <= calls && Contents() == Applied(before, s, conn, k)
      {
        if k == calls { return; }
        Apply(resources[k]);
      }
    }

    /** The clean-up loop for a completed job; it is stopped after `calls` calls, or raises where a
        resource is not found. */
    method DeleteResources(s: Script, conn: Conn, calls: nat) returns (raised: bool)
      modifies this
      ensures var n := Deletable(old(Contents()));
              && raised == (n < 5 && n < calls)
              && Contents() == Deleted(old(Contents()), if calls < n then calls else n)
    {
      var resources := [ServiceAccount, ScriptSecret(s), UserSecret(conn), PullSecret, ScriptJob(s)];
      ghost var before := Contents();
      for k := 0 to |resources|
        invariant k <= calls && k <= Deletable(before) && Contents() == Deleted(before, k)
      {
        if k == calls { return false; }
        var found := Delete(resources[k]);
        if !found {
          assert Contents() == Deleted(before, k);
          return true;
        }
      }
      return false;
    }

    /** `_process_db_access`; `calls` is where the apply loop or the clean-up is stopped. */
    method ProcessDbAccess(dry: bool, def: Def, newPassword: string, adminDb: string, calls: nat)
      returns (failure: Option<Failure>, ghost revokes: seq<Statement>)
      modifies this
      ensures IsRevokeChanged(revokes, Recorded(old(Contents())), def.access)
      ensures var w := old(Contents());
              failure == if Refusal(w, def, newPassword, adminDb).Some? then Refusal(w, def, newPassword, adminDb)
                         else if CleansUp(w, def, newPassword, adminDb) && !dry && Deletable(w) < 5 && Deletable(w) + 1 < calls then Some(NotFound)
                         else None
      ensures Contents() == Pass(old(Contents()), def, dry, newPassword, revokes, calls, adminDb)
    {
      var current: Option<seq<Access>> := if store.Some? then Some(store.value.access) else None;
      var statements := GenerateRevokeChanged(current, def.access);
      revokes := statements;
      var valid := AccessIsValid(def.access);
      if !valid { return Some(DuplicateSchema), statements; }
      if store.Some? {
        if store.value == def { return None, statements; }
        if store.value.database != def.database { return Some(DatabaseChanged), statements; }
        if store.value.username != def.username { return Some(UsernameChanged), statements; }
      }
      var conn := if user.Some? then user.value else Conn(def.username, def.database, newPassword);
      if conn.database == adminDb { return Some(DefaultDatabase), statements; }
      var recorded := if store.Some? then store.value.access else [];
      var script := Script(def, recorded, statements, conn.password);
      if job == None {
        if !dry { ApplyResources(script, conn, calls); }
        return None, statements;
      }
      if job.value.status == Active { return None, statements; }
      if job.value.status == Failed { return Some(JobFailed), statements; }
      var raised := CleanUp(dry, def, script, conn, calls);
      return if raised then Some(NotFound) else None, statements;
    }

    /** The clean-up: Vault, the deletions, the record. */
    method CleanUp(dry: bool, def: Def, s: Script, conn: Conn, calls: nat) returns (raised: bool)
      modifies this
      ensures raised == (!dry && Deletable(old(Contents())) < 5 && Deletable(old(Contents())) + 1 < calls)
      ensures Contents() == Completed(old(Contents()), def, conn, dry, calls)
    {
      raised := false;
      if calls == 0 { return; }
      if !dry && !def.delete { vault := Some(conn); }
      if !dry {
        raised := DeleteResources(s, conn, calls - 1);
        if raised { return; }
      }
      if calls >= CLEAN_UP { store := Some(def); }
    }
  }
}
