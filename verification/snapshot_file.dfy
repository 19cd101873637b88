// A JSON store written as temporary file, sync, rename. Saving may fail at any
// step, and the process may stop before any step.
module SnapshotFiles {
  import opened Text

  // What a path holds. Torn content is the remains of an unfinished write.
  datatype Content<+T> = Missing | Blank | Torn | Whole(value: T)

  datatype Step = MakeDirectory | Marshal | OpenTemp | WriteTemp | SyncTemp | CloseTemp | RenameTemp | Return

  datatype Fault = NoFault | Fails(step: Step) | StopsBefore(step: Step) {
    // Return is not an operation, so it cannot fail.
    predicate Possible() { this != Fails(Return) }
    // The rename took place.
    predicate Commits() { NoFault? || this == StopsBefore(Return) }
  }

  datatype SaveResult = Saved | SaveError(step: Step) | Interrupted

  datatype LoadResult<+T> = Loaded(value: T) | LoadError

  datatype Attempt<+T> = Attempt(data: T, fault: Fault)

  // Attempt i is the last one whose rename took place.
  ghost predicate LastCommitted<T>(attempts: seq<Attempt<T>>, i: int) {
    0 <= i < |attempts| && attempts[i].fault.Commits() && forall j :: i < j < |attempts| ==> !attempts[j].fault.Commits()
  }

  ghost predicate NoneCommitted<T>(attempts: seq<Attempt<T>>) {
    forall j :: 0 <= j < |attempts| ==> !attempts[j].fault.Commits()
  }

  class SnapshotFile<T> {
    var main: Content<T>
    var temp: Content<T>
    ghost const start: Content<T>        // what the file held at first
    ghost var attempts: seq<Attempt<T>>  // every save since, in order

    // The file is what the saves since made of it.
    ghost predicate Faithful()
      reads this
    {
      main == MainAfter(start, attempts)
    }

    constructor (found: Content<T>)
      ensures main == found && temp == Missing && start == found && attempts == [] && Faithful()
    {
      main, temp, start, attempts := found, Missing, found, [];
    }

    method Save(data: T, fault: Fault) returns (result: SaveResult)
      requires fault.Possible()
      modifies this
      ensures attempts == old(attempts) + [Attempt(data, fault)]
      ensures old(Faithful()) ==> Faithful()
      // success is reported exactly when nothing went wrong, and then the data is in place
      ensures result == Saved <==> fault == NoFault
      ensures main == if fault.Commits() then Whole(data) else old(main)
      // an error return leaves no half-written file behind
      ensures result.SaveError? && temp != old(temp) ==> temp == Missing
      ensures result == Saved ==> temp == Missing
    {
      result := Write(data, fault);
      attempts := attempts + [Attempt(data, fault)];
      assert attempts[..|attempts| - 1] == old(attempts);
    }

    // The steps of a save.
    method Write(data: T, fault: Fault) returns (result: SaveResult)
      requires fault.Possible()
      modifies this`main, this`temp
      ensures result == Saved <==> fault == NoFault
      ensures main == if fault.Commits() then Whole(data) else old(main)
      ensures result.SaveError? && temp != old(temp) ==> temp == Missing
      ensures result == Saved ==> temp == Missing
    {
      ghost var step := if fault.NoFault? then Return else fault.step;
      assert step.MakeDirectory? || step.Marshal? || step.OpenTemp? || step.WriteTemp? ||
             step.SyncTemp? || step.CloseTemp? || step.RenameTemp? || step.Return?;
      if fault == StopsBefore(MakeDirectory) { return Interrupted; }
      if fault == Fails(MakeDirectory) { return SaveError(MakeDirectory); }
      if fault == StopsBefore(Marshal) { return Interrupted; }
      if fault == Fails(Marshal) { return SaveError(Marshal); }
      if fault == StopsBefore(OpenTemp) { return Interrupted; }
      if fault == Fails(OpenTemp) { return SaveError(OpenTemp); }
      temp := Blank;
      if fault == StopsBefore(WriteTemp) { return Interrupted; }
      temp := Torn;  // until the sync returns the content may be incomplete
      if fault == Fails(WriteTemp) { temp := Missing; return SaveError(WriteTemp); }
      if fault == StopsBefore(SyncTemp) { return Interrupted; }
      if fault == Fails(SyncTemp) { temp := Missing; return SaveError(SyncTemp); }
      temp := Whole(data);
      if fault == StopsBefore(CloseTemp) { return Interrupted; }
      if fault == Fails(CloseTemp) { temp := Missing; return SaveError(CloseTemp); }
      if fault == StopsBefore(RenameTemp) { return Interrupted; }
      if fault == Fails(RenameTemp) { temp := Missing; return SaveError(RenameTemp); }
      main, temp := temp, Missing;
      if fault == StopsBefore(Return) { return Interrupted; }
      return Saved;
    }

    // empty is the empty map; readable tells whether the file could be read at all.
    // Whatever happened to the saves in between, a load gives what the last
    // committed save wrote, never a part of it and never the data of a failed one.
    method Load(empty: T, readable: bool) returns (result: LoadResult<T>)
      ensures result == LoadedFrom(main, empty, readable)
      ensures Faithful() ==> forall i :: LastCommitted(attempts, i) ==>
                               result == if readable then Loaded(attempts[i].data) else LoadError
      ensures Faithful() && NoneCommitted(attempts) ==> result == LoadedFrom(start, empty, readable)
    {
      LoadGivesLastCommitted(start, attempts);
      match main {
        case Missing => return Loaded(empty);
        case Blank => return Loaded(empty);
        case Torn => return LoadError;
        case Whole(value) => return if readable then Loaded(value) else LoadError;
      }
    }
  }

  function LoadedFrom<T>(main: Content<T>, empty: T, readable: bool): LoadResult<T> {
    match main
    case Missing => Loaded(empty)
    case Blank => Loaded(empty)
    case Torn => LoadError
    case Whole(value) => if readable then Loaded(value) else LoadError
  }

  // The main file after a history of save attempts.
  function MainAfter<T>(start: Content<T>, attempts: seq<Attempt<T>>): Content<T> {
    if attempts == [] then start
    else
      var last := attempts[|attempts| - 1];
      if last.fault.Commits() then Whole(last.data) else MainAfter(start, attempts[..|attempts| - 1])
  }

  // After any history of failed, interrupted and successful saves the file holds
  // the data of the one attempt that committed last, whole; with none, what was
  // there before. In particular it never becomes torn.
  lemma {:induction false} LoadGivesLastCommitted<T>(start: Content<T>, attempts: seq<Attempt<T>>)
    ensures NoneCommitted(attempts) ==> MainAfter(start, attempts) == start
    ensures !NoneCommitted(attempts) ==> exists i :: LastCommitted(attempts, i)
    ensures forall i :: LastCommitted(attempts, i) ==> MainAfter(start, attempts) == Whole(attempts[i].data)
  {
    if attempts == [] {
      return;
    }
    var shorter, last := attempts[..|attempts| - 1], |attempts| - 1;
    if attempts[last].fault.Commits() {
      assert LastCommitted(attempts, last);
      forall i | LastCommitted(attempts, i) ensures i == last {
      }
    } else {
      LoadGivesLastCommitted(start, shorter);
      forall i ensures LastCommitted(attempts, i) <==> LastCommitted(shorter, i) {
        SameWithoutLast(attempts, i);
      }
      if !NoneCommitted(shorter) {
        var i :| LastCommitted(shorter, i);
        assert LastCommitted(attempts, i);
      }
    }
  }

  // An attempt that does not commit makes no difference.
  lemma SameWithoutLast<T>(attempts: seq<Attempt<T>>, i: int)
    requires attempts != [] && !attempts[|attempts| - 1].fault.Commits()
    ensures LastCommitted(attempts, i) <==> LastCommitted(attempts[..|attempts| - 1], i)
    ensures NoneCommitted(attempts) <==> NoneCommitted(attempts[..|attempts| - 1])
  {
    var shorter := attempts[..|attempts| - 1];
    assert forall j :: 0 <= j < |shorter| ==> shorter[j] == attempts[j];
  }
}
