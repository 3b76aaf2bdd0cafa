/** The Manager object (internal/state/manager.go): its fields, and its methods as the mutex makes
    them appear, whole calls of the store. What the file system decides is left open: each of its
    operations may fail. */
module ManagerObject {
  import opened Collections
  import opened Blueprint
  import opened Store

  class Manager {
    var resources: Entries
    var privateResources: PrivateEntries
    var lastWriteErr: bool
    var lastWriteTime: Option<int>
    // the two files that only this object writes
    var output: Option<Doc>
    var tmp: Option<Doc>
    // history
    ghost const initial: Option<Doc>
    ghost var attempts: seq<Attempt>
    ghost var born: nat
    ghost var unsaved: bool

    ghost function State(): Store
      reads this
    {
      Store(resources, privateResources, lastWriteErr, lastWriteTime, Idle, output, tmp, attempts, born, unsaved)
    }

    /** The object is consistent with its history: the file holds what it held at first or what the last
        successful attempt set out to write, the status fields tell how the last attempt ended, and
        unless something was left unwritten the last attempt was of the current maps. */
    ghost predicate Valid()
      reads this
    {
      StoreOk(State(), initial)
    }

    /** One attempt was made since, to write the maps as they are, and the error flag says how it went. */
    ghost predicate Attempted(before: seq<Attempt>)
      reads this
    {
      && |attempts| == |before| + 1 && attempts[..|before|] == before
      && var last := attempts[|before|];
         && last.pub == resources && last.priv == privateResources
         && if lastWriteErr then last.outcome == Failed
            else
              && lastWriteTime.Some? && last.outcome == Succeeded(lastWriteTime.value)
              && output == Some(Document(resources, privateResources))
    }

    /** No write was tried: both files and what is known of the last write are as they were. */
    ghost predicate FilesUntouched(before: Store)
      reads this
    {
      && output == before.output && tmp == before.tmp && attempts == before.attempts
      && lastWriteErr == before.lastWriteErr && lastWriteTime == before.lastWriteTime
    }

    /** The state in which writeState starts. */
    ghost function Writing(): Store
      reads this
    {
      State().(phase := Marshalling, attempts := attempts + [Attempt(resources, privateResources, Running)])
    }

    constructor (output: Option<Doc>, tmp: Option<Doc>)
      ensures State() == Start(output, tmp) && Valid() && initial == output
    {
      resources, privateResources, lastWriteErr, lastWriteTime := map[], map[], false, None;
      this.output, this.tmp, initial := output, tmp, output;
      attempts, born, unsaved := [], 0, false;
      new;
      StartOk(output, tmp);
    }

    method AddOrUpdate(key: string, r: Resource, write: bool) returns (changed: bool, ghost end: Result)
      requires Valid()
      modifies this
      ensures changed == Effective(Put(key, r, write), old(State()))
      ensures changed == (Lookup(old(resources), key) != Some(r))
      ensures resources == old(resources)[key := r] && privateResources == old(privateResources)
      ensures changed && write ==> Attempted(old(attempts))
      ensures !changed || !write ==> FilesUntouched(old(State()))
      ensures Possible(end, old(State())) && State() == RunCall(Put(key, r, write), end, old(State()))
      ensures Valid()
    {
      end := MarshalError;
      if key in resources && resources[key] == r {
        IneffectiveCall(Put(key, r, write), State());
        return false, end;
      }
      resources := resources[key := r];
      if write {
        end := WriteState();
      } else {
        unsaved := true;
      }
      changed := true;
      RunCallOk(Put(key, r, write), end, old(State()), initial);
    }

    method AddOrUpdatePrivate(key: string, p: PrivateResource, write: bool) returns (changed: bool, ghost end: Result)
      requires Valid()
      modifies this
      ensures changed == Effective(PutPrivate(key, p, write), old(State()))
      ensures changed == (Lookup(old(privateResources), key) != Some(p))
      ensures privateResources == old(privateResources)[key := p] && resources == old(resources)
      ensures changed && write ==> Attempted(old(attempts))
      ensures !changed || !write ==> FilesUntouched(old(State()))
      ensures Possible(end, old(State())) && State() == RunCall(PutPrivate(key, p, write), end, old(State()))
      ensures Valid()
    {
      end := MarshalError;
      if key in privateResources && privateResources[key] == p {
        IneffectiveCall(PutPrivate(key, p, write), State());
        return false, end;
      }
      privateResources := privateResources[key := p];
      if write {
        end := WriteState();
      } else {
        unsaved := true;
      }
      changed := true;
      RunCallOk(PutPrivate(key, p, write), end, old(State()), initial);
    }

    method RemovePrivate(key: string) returns (removed: bool, ghost end: Result)
      requires Valid()
      modifies this
      ensures removed == Effective(Call.RemovePrivate(key), old(State()))
      ensures removed == (key in old(privateResources))
      ensures privateResources == old(privateResources) - {key} && resources == old(resources)
      ensures if removed then Attempted(old(attempts)) else FilesUntouched(old(State()))
      ensures Possible(end, old(State())) && State() == RunCall(Call.RemovePrivate(key), end, old(State()))
      ensures Valid()
    {
      end := MarshalError;
      if key !in privateResources {
        IneffectiveCall(Call.RemovePrivate(key), State());
        return false, end;
      }
      privateResources := privateResources - {key};
      end := WriteState();
      removed := true;
      RunCallOk(Call.RemovePrivate(key), end, old(State()), initial);
    }

    method Remove(key: string) returns (removed: bool, ghost end: Result)
      requires Valid()
      modifies this
      ensures removed == Effective(Call.Remove(key), old(State()))
      ensures removed == (key in old(resources))
      ensures resources == old(resources) - {key} && privateResources == old(privateResources)
      ensures if removed then Attempted(old(attempts)) else FilesUntouched(old(State()))
      ensures Possible(end, old(State())) && State() == RunCall(Call.Remove(key), end, old(State()))
      ensures Valid()
    {
      end := MarshalError;
      if key !in resources {
        IneffectiveCall(Call.Remove(key), State());
        return false, end;
      }
      resources := resources - {key};
      end := WriteState();
      removed := true;
      RunCallOk(Call.Remove(key), end, old(State()), initial);
    }

    method ForceWrite() returns (ghost end: Result)
      requires Valid()
      modifies this
      ensures Possible(end, old(State())) && State() == RunCall(Call.ForceWrite, end, old(State()))
      ensures resources == old(resources) && privateResources == old(privateResources) && Attempted(old(attempts))
      ensures Valid()
    {
      end := WriteState();
      RunCallOk(Call.ForceWrite, end, old(State()), initial);
    }

    /** Healthy means: nothing was tried yet, or the last try succeeded no longer than the threshold ago
        and the file holds what it set out to write. */
    method WriteHealthy(now: int, threshold: int) returns (healthy: bool)
      requires Valid()
      ensures healthy == Healthy(State(), now, threshold)
      ensures var s := State();
        healthy <==>
          !Tried(s) || (LastAttempt(s).outcome.Succeeded? && now - LastAttempt(s).outcome.at <= threshold)
      ensures healthy && Tried(State()) ==>
        output == Some(Document(LastAttempt(State()).pub, LastAttempt(State()).priv))
    {
      HealthReflectsHistory(State(), initial, now, threshold);
      if lastWriteErr {
        return false;
      }
      if lastWriteTime.None? {
        return true;
      }
      return now - lastWriteTime.value <= threshold;
    }

    /** Render, write the temporary file, rename it over the output, clean up when that fails. */
    method WriteState() returns (ghost end: Result)
      modifies this
      ensures Possible(end, old(State())) && State() == FinishWrite(end, old(Writing()))
      ensures resources == old(resources) && privateResources == old(privateResources) && Attempted(old(attempts))
      ensures lastWriteErr ==> output == old(output) && lastWriteTime == old(lastWriteTime)
      ensures !lastWriteErr ==> output == Some(Document(resources, privateResources)) && tmp == None
    {
      attempts := attempts + [Attempt(resources, privateResources, Running)];
      var data := Document(resources, privateResources);
      var marshalled: bool := *;
      if !marshalled {
        lastWriteErr, attempts := true, Mark(attempts, Failed);
        return MarshalError;
      }

      var written: bool := *;
      if !written {
        var touched: bool, rest: string := *, *;
        if touched {
          tmp := Some(Foreign(rest));
        }
        lastWriteErr, attempts := true, Mark(attempts, Failed);
        return TempError(tmp);
      }
      tmp := Some(data);

      var renamed: bool := *;
      if !renamed {
        var removed: bool := *;
        if removed {
          tmp := None;
        }
        lastWriteErr, attempts := true, Mark(attempts, Failed);
        return RenameError(removed);
      }
      output, tmp := tmp, None;

      var now: int := *;
      lastWriteErr, lastWriteTime := false, Some(now);
      attempts, unsaved := Mark(attempts, Succeeded(now)), false;
      return Written(now);
    }
  }
}
