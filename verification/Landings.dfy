/**
 Where projected sign-ins land on the target, and whose text is brought back over whose. Two of
 them may land in one place: a variable given two directories, or two variables alike but for
 their case, name one directory there.
 */
module Landings {
  import opened Drive
  import opened Lending

  /** The text of a sign-in: which account it is of, and the token it holds. */
  datatype Content = Content(account: File, token: Token)

  /** A sign-in as it is recorded once it has landed. */
  datatype Record = Record(here: File, at: Place, sent: Content)

  predicate AllThere(disk: map<File, Content>, files: seq<Parcel>) {
    forall p | p in files :: p.file in disk
  }

  /** What is on the target once each is written where it lands, one over another. */
  function Landed(disk: map<File, Content>, files: seq<Parcel>): (there: map<Place, Content>)
    requires AllThere(disk, files)
    ensures forall p | p in files :: p.at in there
  {
    if files == [] then map[]
    else
      var first, last := files[..|files| - 1], files[|files| - 1];
      assert files == first + [last];
      Landed(disk, first)[last.at := disk[last.file]]
  }

  function Recorded(disk: map<File, Content>, files: seq<Parcel>): seq<Record>
    requires AllThere(disk, files)
  {
    seq(|files|, i requires 0 <= i < |files| => Record(files[i].file, files[i].at, disk[files[i].file]))
  }

  predicate Readable(disk: map<File, Content>, there: map<Place, Content>, lent: seq<Record>) {
    forall one | one in lent :: one.here in disk && one.at in there
  }

  /** What is brought back, one after another: what differs from what was sent, over an original that
      does not. */
  function Back(disk: map<File, Content>, there: map<Place, Content>, lent: seq<Record>): (r: map<File, Content>)
    requires Readable(disk, there, lent)
    ensures r.Keys == disk.Keys
  {
    if lent == [] then disk
    else
      var before, one := Back(disk, there, lent[..|lent| - 1]), lent[|lent| - 1];
      if there[one.at] != one.sent && before[one.here] == one.sent then before[one.here := there[one.at]] else before
  }

  /** Puts every sign-in on the target, recording each. */
  method Project(disk: map<File, Content>, files: seq<Parcel>) returns (there: map<Place, Content>, lent: seq<Record>)
    requires AllThere(disk, files)
    ensures there == Landed(disk, files) && lent == Recorded(disk, files)
  {
    hide Landed, Recorded;
    there, lent := map[], [];
    NoneLanded(disk);
    for i := 0 to |files|
      invariant there == Landed(disk, files[..i]) && lent == Recorded(disk, files[..i])
    {
      var one := files[i];
      LandedThen(disk, files, i);
      there := there[one.at := disk[one.file]];
      lent := lent + [Record(one.file, one.at, disk[one.file])];
    }
    assert files[..|files|] == files;
  }

  /** Brings back what there is of each, in the order they were recorded. */
  method BringBack(disk: map<File, Content>, there: map<Place, Content>, lent: seq<Record>) returns (r: map<File, Content>)
    requires Readable(disk, there, lent)
    ensures r == Back(disk, there, lent)
  {
    r := disk;
    for i := 0 to |lent|
      invariant r == Back(disk, there, lent[..i])
    {
      var one := lent[i];
      assert lent[..i + 1][..i] == lent[..i];
      var now := there[one.at];
      if now != one.sent {
        if r[one.here] == one.sent {
          r := r[one.here := now];
        }
      }
    }
    assert lent[..|lent|] == lent;
  }

  lemma NoneLanded(disk: map<File, Content>)
    ensures Landed(disk, []) == map[] && Recorded(disk, []) == []
  {
  }

  lemma LandedThen(disk: map<File, Content>, files: seq<Parcel>, i: nat)
    requires AllThere(disk, files) && i < |files|
    ensures AllThere(disk, files[..i]) && AllThere(disk, files[..i + 1])
    ensures Landed(disk, files[..i + 1]) == Landed(disk, files[..i])[files[i].at := disk[files[i].file]]
    ensures Recorded(disk, files[..i + 1]) == Recorded(disk, files[..i]) + [Record(files[i].file, files[i].at, disk[files[i].file])]
  {
    assert files[..i + 1][..i] == files[..i];
  }

  /** The last of some files to land in a place. */
  function LastAt(files: seq<Parcel>, at: Place): (k: nat)
    requires exists i :: 0 <= i < |files| && files[i].at == at
    ensures k < |files| && files[k].at == at && forall j | k < j < |files| :: files[j].at != at
  {
    if files[|files| - 1].at == at then |files| - 1 else LastAt(files[..|files| - 1], at)
  }

  lemma {:induction false} LastLanded(disk: map<File, Content>, files: seq<Parcel>, i: nat)
    requires AllThere(disk, files) && i < |files|
    ensures var k := LastAt(files, files[i].at); Landed(disk, files)[files[i].at] == disk[files[k].file]
    decreases |files|
  {
    var first, last := files[..|files| - 1], files[|files| - 1];
    if last.at != files[i].at {
      assert first[i].at == files[i].at;
      LastLanded(disk, first, i);
    }
  }

  /** Whether every file holds its own account. */
  predicate Own(disk: map<File, Content>) {
    forall f | f in disk :: disk[f].account == f
  }

  /** Whether the last to land in a place is, for every file that lands there, that file. */
  predicate LastOwn(files: seq<Parcel>) {
    forall i | 0 <= i < |files| :: files[LastAt(files, files[i].at)].file == files[i].file
  }

  /** What a CLI may make of what is there: each sign-in of the account it was of. */
  predicate Refreshes(there: map<Place, Content>, after: map<Place, Content>) {
    after.Keys == there.Keys && forall at | at in there :: after[at].account == there[at].account
  }

  /** Each copy is of its own account where the last to land in its place is its own. */
  lemma {:induction false} OwnBack(disk: map<File, Content>, there: map<Place, Content>, lent: seq<Record>)
    requires Own(disk) && Readable(disk, there, lent) && forall one | one in lent :: there[one.at].account == one.here
    ensures Own(Back(disk, there, lent))
    decreases |lent|
  {
    if lent != [] {
      assert lent[|lent| - 1] in lent;
      OwnBack(disk, there, lent[..|lent| - 1]);
    }
  }

  /** Nothing refreshed: a file ends as another's account exactly where some copy of it is another's. */
  lemma {:induction false} AnothersBack(disk: map<File, Content>, there: map<Place, Content>, lent: seq<Record>, f: File)
    requires Own(disk) && Readable(disk, there, lent) && f in disk
    requires forall one | one in lent ::
               one.sent == disk[one.here] && (there[one.at].account == one.here ==> there[one.at] == one.sent)
    ensures if exists one: Record :: one in lent && one.here == f && there[one.at].account != f
            then Back(disk, there, lent)[f].account != f
            else Back(disk, there, lent)[f] == disk[f]
    decreases |lent|
  {
    if lent != [] {
      var first, last := lent[..|lent| - 1], lent[|lent| - 1];
      assert lent == first + [last] && last in lent;
      AnothersBack(disk, there, first, f);
    }
  }

  lemma EachRecorded(disk: map<File, Content>, files: seq<Parcel>)
    requires AllThere(disk, files)
    ensures Readable(disk, Landed(disk, files), Recorded(disk, files))
  {
    forall one | one in Recorded(disk, files) ensures one.here in disk && one.at in Landed(disk, files) {
      var i :| 0 <= i < |files| && Recorded(disk, files)[i] == one;
      assert files[i] in files;
    }
  }

  /** A file none of whose copies differs from what it held ends as it was. */
  lemma {:induction false} SameBack(disk: map<File, Content>, there: map<Place, Content>, lent: seq<Record>, f: File)
    requires Readable(disk, there, lent) && f in disk && forall one: Record | one in lent :: one.sent == disk[one.here]
    requires forall i | 0 <= i < |lent| && lent[i].here == f :: there[lent[i].at] == disk[f]
    ensures Back(disk, there, lent)[f] == disk[f]
    decreases |lent|
  {
    if lent != [] {
      assert lent[|lent| - 1] in lent;
      SameBack(disk, there, lent[..|lent| - 1], f);
    }
  }

  /** And any other as the first of its copies to differ, in the order they were recorded: those
      after it find the original changed, and are left. */
  lemma {:induction false} FirstBack(disk: map<File, Content>, there: map<Place, Content>, lent: seq<Record>, k: nat)
    requires Readable(disk, there, lent) && forall one: Record | one in lent :: one.sent == disk[one.here]
    requires k < |lent| && lent[k].here in disk && lent[k].at in there && there[lent[k].at] != disk[lent[k].here]
    requires forall i | 0 <= i < k && lent[i].here == lent[k].here ::
               lent[i].at in there && there[lent[i].at] == disk[lent[k].here]
    ensures Back(disk, there, lent)[lent[k].here] == there[lent[k].at]
    decreases |lent|
  {
    var first := lent[..|lent| - 1];
    assert lent[|lent| - 1] in lent && Readable(disk, there, first);
    if k == |first| {
      SameBack(disk, there, first, lent[k].here);
    } else {
      FirstBack(disk, there, first, k);
    }
  }

  lemma LandedAccount(disk: map<File, Content>, files: seq<Parcel>, i: nat)
    requires Own(disk) && AllThere(disk, files) && i < |files|
    ensures var there, one := Landed(disk, files), Recorded(disk, files)[i];
      && one.at in there && there[one.at].account == files[LastAt(files, files[i].at)].file
      && one.here in disk && one.sent == disk[one.here]
      && (there[one.at].account == one.here ==> there[one.at] == one.sent)
  {
    LastLanded(disk, files, i);
    assert files[LastAt(files, files[i].at)] in files && files[i] in files;
  }

  lemma OwnWhere(disk: map<File, Content>, files: seq<Parcel>, after: map<Place, Content>)
    requires Own(disk) && AllThere(disk, files) && LastOwn(files) && Refreshes(Landed(disk, files), after)
    ensures Readable(disk, after, Recorded(disk, files)) && Own(Back(disk, after, Recorded(disk, files)))
  {
    hide Landed, Back;
    var lent := Recorded(disk, files);
    EachRecorded(disk, files);
    forall one | one in lent ensures after[one.at].account == one.here {
      var i :| 0 <= i < |files| && lent[i] == one;
      LandedAccount(disk, files, i);
    }
    OwnBack(disk, after, lent);
  }

  lemma NotOwnWhere(disk: map<File, Content>, files: seq<Parcel>)
    requires Own(disk) && AllThere(disk, files) && !LastOwn(files)
    ensures Readable(disk, Landed(disk, files), Recorded(disk, files))
    ensures !Own(Back(disk, Landed(disk, files), Recorded(disk, files)))
  {
    hide Landed, Back;
    var there, lent := Landed(disk, files), Recorded(disk, files);
    EachRecorded(disk, files);
    forall one | one in lent
      ensures one.sent == disk[one.here] && (there[one.at].account == one.here ==> there[one.at] == one.sent)
    {
      var k :| 0 <= k < |files| && lent[k] == one;
      LandedAccount(disk, files, k);
    }
    var i :| 0 <= i < |files| && files[LastAt(files, files[i].at)].file != files[i].file;
    LandedAccount(disk, files, i);
    assert lent[i] in lent;
    AnothersBack(disk, there, lent, files[i].file);
  }

  /** Whatever the CLI refreshes, every original keeps its own account exactly where no other lands over
      a copy of it. Where one does, not even a refresh is needed: what is there differs from what was
      sent, the original does not, and another's account is written over it. */
  lemma OwnExactly(disk: map<File, Content>, files: seq<Parcel>)
    requires Own(disk) && AllThere(disk, files)
    ensures forall after: map<Place, Content> | Refreshes(Landed(disk, files), after) ::
              Readable(disk, after, Recorded(disk, files))
    ensures (forall after: map<Place, Content> | Refreshes(Landed(disk, files), after) ::
               Own(Back(disk, after, Recorded(disk, files)))) <==> LastOwn(files)
  {
    hide Back, Landed, Recorded, Own, LastOwn;
    EachRecorded(disk, files);
    forall after: map<Place, Content> | Refreshes(Landed(disk, files), after)
      ensures Readable(disk, after, Recorded(disk, files))
      ensures LastOwn(files) ==> Own(Back(disk, after, Recorded(disk, files)))
    {
      if LastOwn(files) { OwnWhere(disk, files, after); }
    }
    if !LastOwn(files) {
      NotOwnWhere(disk, files);
      assert Refreshes(Landed(disk, files), Landed(disk, files));
    }
  }

  /** Landing each in a place of its own is enough. */
  lemma ApartIsOwn(files: seq<Parcel>)
    requires Distinct(Places(files))
    ensures LastOwn(files)
  {
    forall i | 0 <= i < |files| ensures files[LastAt(files, files[i].at)].file == files[i].file {
      var k := LastAt(files, files[i].at);
      assert Places(files)[k] == Places(files)[i];
    }
  }
}
