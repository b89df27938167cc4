/**
 One path in a small file system of names and files: any number of writers that replace what is
 there or make it, any number of readers, a failure possible at every step of each, and every
 order their steps may come in.
 */
module Atomic {
  import opened Maybe

  /** The path written, and what is made beside it. */
  datatype Name = Target | Temp(n: nat)

  /** What a name stands for: some text, its permissions, and who wrote it, if any of these did. */
  datatype File = File(text: string, mode: nat, author: Option<nat>)

  /** `writes` replaces whatever is at the path; `creates` makes only what is not there. */
  datatype Kind = Replacing | Making

  datatype Stage =
    | Starting
    | Asked      // with the permissions to keep known
    | Opened     // with an empty file beside the path
    | Filling    // with its permissions set
    | Written    // with all of it on disk, and closed
    | Failing    // to be taken away, for something that failed
    | Linked     // to be taken away, now that it is at the path as well
    | Refused    // to be taken away, for what is at the path already
    | Returned
    | Raised
    | Killed

  datatype Writer = Writer(
    kind: Kind, said: string, mode: Option<nat>,
    stage: Stage, keeps: Option<nat>, temp: nat, file: nat, done: nat, won: bool)
  {
    /** Whether it has yet to make anything. */
    predicate Early() {
      stage.Starting? || stage.Asked?
    }

    /** Whether the permissions it keeps are those it was given, if it was given any. */
    predicate Minds() {
      mode.Some? ==> keeps == mode
    }

    /** Whether the file beside the path is there, and its own to write or take away. */
    predicate Owns() {
      stage.Opened? || stage.Filling? || stage.Written? || stage.Failing? || stage.Linked? || stage.Refused?
    }
  }

  /** Somebody reading the path: the file it found there, and what it has read of it so far. */
  datatype Reader = Reader(file: nat, got: string)

  datatype State = State(
    names: map<Name, nat>, files: map<nat, File>, writers: map<nat, Writer>, readers: map<nat, Reader>,
    wide: nat,            // the permissions a new file gets by itself
    narrow: nat,          // and one whose permissions are to be set
    origin: Option<File>, // what was at the path to begin with
    placed: set<nat>,     // the files that have been at the path
    left: set<nat>)       // the writers that could not take theirs away from beside it

  datatype Act =
    | Asks | AsksInVain
    | Makes(n: nat, file: nat) | MakesInVain
    | Sets | Fills(k: nat) | Syncs | Fails
    | Places | PlacesInVain
    | Unlinks | UnlinksInVain
    | Dies

  datatype Look = Opens | Takes(k: nat)

  datatype Event = Does(i: nat, act: Act) | Reads(r: nat, look: Look) | Removed

  predicate May(s: State, w: Writer, act: Act) {
    match act
    case Asks => w.stage.Starting?
    case AsksInVain => w.stage.Starting? && w.kind.Replacing? && w.mode.None?
    case Makes(_, file) => w.stage.Asked? && file !in s.files
    case MakesInVain => w.stage.Asked?
    case Sets => w.stage.Opened?
    case Fills(k) => w.stage.Filling? && w.done + k <= |w.said|
    case Syncs => w.stage.Filling? && w.done == |w.said|
    case Fails => w.stage.Opened? || w.stage.Filling?
    case Places => w.stage.Written?
    case PlacesInVain => w.stage.Written?
    case Unlinks => w.stage.Failing? || w.stage.Linked? || w.stage.Refused?
    case UnlinksInVain => w.stage.Failing? || w.stage.Linked? || w.stage.Refused?
    case Dies => !w.stage.Returned? && !w.stage.Raised? && !w.stage.Killed?
  }

  predicate Enabled(s: State, e: Event) {
    match e
    case Does(i, act) => i in s.writers && May(s, s.writers[i], act)
    case Reads(r, look) => look.Takes? ==> r in s.readers && s.readers[r].file in s.files
    case Removed => true
  }

  /** The permissions what is at the path has. */
  function Kept(s: State): Option<nat> {
    if Target in s.names && s.names[Target] in s.files then Some(s.files[s.names[Target]].mode) else None
  }

  function Wrote(s: State, i: nat, w: Writer): State {
    s.(writers := s.writers[i := w])
  }

  /** A name taken only where nothing has it; where something does, another is tried. */
  function Made(s: State, i: nat, w: Writer, n: nat, file: nat): State {
    if Temp(n) in s.names then s
    else
      Wrote(s, i, w.(stage := Opened, temp := n, file := file, done := 0))
        .(names := s.names[Temp(n) := file],
          files := s.files[file := File("", if w.keeps.Some? then s.narrow else s.wide, Some(i))])
  }

  function Filled(s: State, i: nat, w: Writer, k: nat): State
    requires w.file in s.files && w.done + k <= |w.said|
  {
    Wrote(s, i, w.(done := w.done + k))
      .(files := s.files[w.file := s.files[w.file].(text := w.said[..w.done + k])])
  }

  function Moded(s: State, i: nat, w: Writer): State
    requires w.file in s.files
  {
    Wrote(s, i, w.(stage := Filling))
      .(files := if w.keeps.Some? then s.files[w.file := s.files[w.file].(mode := w.keeps.value)] else s.files)
  }

  /** Moved over whatever is at the path, or linked there where nothing is. */
  function Put(s: State, i: nat, w: Writer): State {
    if w.kind.Replacing? then
      Wrote(s, i, w.(stage := Returned)).(names := (s.names - {Temp(w.temp)})[Target := w.file], placed := s.placed + {w.file})
    else if Target in s.names then Wrote(s, i, w.(stage := Refused))
    else
      Wrote(s, i, w.(stage := Linked, won := true)).(names := s.names[Target := w.file], placed := s.placed + {w.file})
  }

  function Unlinked(s: State, i: nat, w: Writer): State {
    Wrote(s, i, w.(stage := if w.stage.Linked? then Returned else Raised)).(names := s.names - {Temp(w.temp)})
  }

  function Done(s: State, i: nat, w: Writer, act: Act): State
    requires May(s, w, act) && (w.Owns() ==> w.file in s.files)
  {
    match act
    case Asks =>
      Wrote(s, i, w.(stage := Asked, keeps := if w.mode.None? && w.kind.Replacing? then Kept(s) else w.mode))
    case AsksInVain => Wrote(s, i, w.(stage := Raised))
    case Makes(n, file) => Made(s, i, w, n, file)
    case MakesInVain => Wrote(s, i, w.(stage := Raised))
    case Sets => Moded(s, i, w)
    case Fills(k) => Filled(s, i, w, k)
    case Syncs => Wrote(s, i, w.(stage := Written))
    case Fails => Wrote(s, i, w.(stage := Failing))
    case Places => Put(s, i, w)
    case PlacesInVain => Wrote(s, i, w.(stage := Failing))
    case Unlinks => Unlinked(s, i, w)
    case UnlinksInVain => Wrote(s, i, w.(stage := Raised)).(left := s.left + {i})
    case Dies => Wrote(s, i, w.(stage := Killed)).(left := if w.Owns() then s.left + {i} else s.left)
  }

  /** Reading: what is at the path is opened once, and then read a part at a time. */
  function Looked(s: State, r: nat, look: Look): State
    requires look.Takes? ==> r in s.readers && s.readers[r].file in s.files
  {
    match look
    case Opens => if Target in s.names then s.(readers := s.readers[r := Reader(s.names[Target], "")]) else s
    case Takes(k) =>
      var reader := s.readers[r];
      var text := s.files[reader.file].text;
      var upto := |reader.got| + k;
      s.(readers := s.readers[r := reader.(got := reader.got + if upto <= |text| then text[|reader.got|..upto] else "")])
  }

  function Apply(s: State, e: Event): State
    requires Enabled(s, e) && (e.Does? ==> s.writers[e.i].Owns() ==> s.writers[e.i].file in s.files)
  {
    match e
    case Does(i, act) => Done(s, i, s.writers[i], act)
    case Reads(r, look) => Looked(s, r, look)
    case Removed => s.(names := s.names - {Target})
  }

  // ------------------------------------------------------------- what every step keeps

  /** A writer whose file is beside the path: it is its own, and holds what it has written. */
  predicate Holds(s: State, i: nat)
    requires i in s.writers
  {
    var w := s.writers[i];
    && Temp(w.temp) in s.names && s.names[Temp(w.temp)] == w.file
    && w.file in s.files && s.files[w.file].author == Some(i)
    && w.Minds() && w.done <= |w.said| && s.files[w.file].text == w.said[..w.done]
    && (w.stage.Written? || w.stage.Linked? || w.stage.Refused? ==> w.done == |w.said|)
    && (w.stage.Opened? ==> w.done == 0 && s.files[w.file].mode == if w.keeps.Some? then s.narrow else s.wide)
    && (w.file in s.placed <==> w.stage.Linked?)
    && (w.stage.Opened? || (w.stage.Failing? && w.done == 0)
        || s.files[w.file].mode == if w.keeps.Some? then w.keeps.value else s.wide)
  }

  /** A file that has been at the path: what was there to begin with, or all one writer said. */
  predicate Whole(s: State, file: nat) {
    && file in s.files
    && (s.files[file].author.None? ==> s.origin == Some(s.files[file]))
    && (s.files[file].author.Some? ==>
          var i := s.files[file].author.value;
          && i in s.writers && !s.writers[i].Early() && s.writers[i].Minds()
          && s.files[file].text == s.writers[i].said && s.writers[i].file == file
          && s.files[file].mode == if s.writers[i].keeps.Some? then s.writers[i].keeps.value else s.wide)
  }

  predicate Read(s: State, r: nat)
    requires r in s.readers
  {
    var reader := s.readers[r];
    reader.file in s.placed && reader.file in s.files && reader.got <= s.files[reader.file].text
  }

  /** What is beside the path is its writer's to take away, or was left there by it. */
  predicate Beside(s: State, n: nat)
    requires Temp(n) in s.names
  {
    var file := s.names[Temp(n)];
    && file in s.files && s.files[file].author.Some?
    && var i := s.files[file].author.value;
      i in s.writers && (i in s.left || (s.writers[i].Owns() && s.writers[i].temp == n))
  }

  ghost predicate Sound(s: State) {
    && (forall i | i in s.writers && s.writers[i].Owns() :: Holds(s, i))
    && (forall i | i in s.writers && s.writers[i].stage.Asked? :: s.writers[i].Minds())
    && (forall file | file in s.placed :: Whole(s, file))
    && (Target in s.names ==> s.names[Target] in s.placed)
    && (forall r | r in s.readers :: Read(s, r))
    && (forall n | Temp(n) in s.names :: Beside(s, n))
    && (forall i, j | i in s.writers && j in s.writers && i != j && s.writers[i].Owns() && s.writers[j].Owns() ::
          s.writers[i].temp != s.writers[j].temp)
  }

  /** Where nothing about a writer's own file has changed, it still holds. */
  lemma HoldsStill(s: State, s': State, i: nat)
    requires i in s.writers && Holds(s, i) && i in s'.writers && s'.writers[i] == s.writers[i]
    requires s'.wide == s.wide && s'.narrow == s.narrow
    requires var w := s.writers[i];
      && Temp(w.temp) in s'.names && s'.names[Temp(w.temp)] == w.file
      && w.file in s'.files && s'.files[w.file] == s.files[w.file]
      && (w.file in s'.placed <==> w.file in s.placed)
    ensures Holds(s', i)
  {
  }

  /** A writer and its name for what was left aside, nothing else: what it still has beside the
      path, if anything, it holds as it did. */
  predicate Onward(s: State, i: nat, w: Writer, left: set<nat>)
    requires i in s.writers
  {
    var was := s.writers[i];
    && s.left <= left
    && w.said == was.said && w.mode == was.mode && w.file == was.file && w.temp == was.temp && w.done == was.done
    && (w.stage.Asked? ==> w.Minds())
    && (w.Owns() ==> was.Owns() && w.keeps == was.keeps && Holds(Wrote(s, i, w), i))
    && (was.Owns() && !w.Owns() ==> i in left)
    && (!was.Early() ==> !w.Early() && w.keeps == was.keeps)
  }

  lemma SoundOnward(s: State, i: nat, w: Writer, left: set<nat>)
    requires Sound(s) && i in s.writers && Onward(s, i, w, left)
    ensures Sound(Wrote(s, i, w).(left := left))
  {
    hide Holds, Whole, Read;
    var s' := Wrote(s, i, w).(left := left);
    forall j | j in s'.writers && s'.writers[j].Owns() ensures Holds(s', j) {
      if j == i {
        HoldsWherever(Wrote(s, i, w), s', i);
      } else {
        HeldFile(s, j);
        HoldsStill(s, s', j);
      }
    }
    forall file | file in s'.placed ensures file in s.files && Whole(s', file) {
      WholeFile(s, file);
      WholeStill(s, s', file);
    }
    forall r | r in s'.readers ensures Read(s', r) {
      ReadStill(s, s', r);
    }
    forall n | Temp(n) in s'.names ensures Beside(s', n) {
      BesideStill(s, s', n, i);
    }
  }

  lemma HoldsWherever(s: State, s': State, i: nat)
    requires i in s.writers && Holds(s, i) && s' == s.(left := s'.left)
    ensures Holds(s', i)
  {
  }

  lemma HeldFile(s: State, i: nat)
    requires i in s.writers && Holds(s, i)
    ensures var w := s.writers[i];
      && Temp(w.temp) in s.names && s.names[Temp(w.temp)] == w.file && w.file in s.files && s.files[w.file].author == Some(i)
      && (w.file in s.placed <==> w.stage.Linked?) && w.done <= |w.said|
      && s.files[w.file].text == w.said[..w.done]
  {
  }

  lemma ReadStill(s: State, s': State, r: nat)
    requires r in s.readers && Read(s, r) && r in s'.readers && s'.readers[r] == s.readers[r] && s.placed <= s'.placed
    requires forall file | file in s.placed :: file in s.files && file in s'.files && s'.files[file] == s.files[file]
    ensures Read(s', r)
  {
  }

  lemma WholeStill(s: State, s': State, file: nat)
    requires Whole(s, file) && file in s'.files && s'.files[file] == s.files[file] && s'.wide == s.wide
    requires s'.origin == s.origin
    requires forall i | i in s.writers :: (
      && i in s'.writers && s'.writers[i].said == s.writers[i].said && s'.writers[i].mode == s.writers[i].mode
      && (!s.writers[i].Early() ==>
            !s'.writers[i].Early() && s'.writers[i].file == s.writers[i].file && s'.writers[i].keeps == s.writers[i].keeps))
    ensures Whole(s', file)
  {
  }

  lemma WholeFile(s: State, file: nat)
    requires Whole(s, file)
    ensures file in s.files
  {
  }

  /** A new file beside the path. */
  lemma SoundMade(s: State, i: nat, n: nat, file: nat)
    requires Sound(s) && i in s.writers && s.writers[i].stage.Asked? && file !in s.files
    ensures Sound(Made(s, i, s.writers[i], n, file))
  {
    hide Holds, Whole, Read;
    var s', w := Made(s, i, s.writers[i], n, file), s.writers[i];
    if Temp(n) !in s.names {
      forall placed | placed in s.placed ensures placed in s.files && Whole(s', placed) {
        WholeFile(s, placed);
        WholeStill(s, s', placed);
      }
      forall j | j in s'.writers && s'.writers[j].Owns() ensures Holds(s', j) {
        if j == i {
          HoldsNew(s, s', i, n, file);
        } else {
          HeldFile(s, j);
          HoldsStill(s, s', j);
        }
      }
      forall r | r in s'.readers ensures Read(s', r) {
        ReadStill(s, s', r);
      }
      forall m | Temp(m) in s'.names ensures Beside(s', m) {
        if m == n {
          assert s'.writers[i].Owns() && s'.writers[i].temp == n;
        } else {
          BesideStill(s, s', m, i);
        }
      }
      forall j | j in s.writers && j != i && s.writers[j].Owns() ensures s.writers[j].temp != n {
        HeldFile(s, j);
      }
    }
  }

  lemma BesideStill(s: State, s': State, n: nat, i: nat)
    requires Temp(n) in s.names && Beside(s, n) && s.left <= s'.left
    requires Temp(n) in s'.names && s'.names[Temp(n)] == s.names[Temp(n)]
    requires var file := s.names[Temp(n)];
      file in s.files ==> file in s'.files && s'.files[file].author == s.files[file].author
    requires forall j | j in s.writers && j != i :: j in s'.writers && s'.writers[j] == s.writers[j]
    requires i in s.writers && s.writers[i].Owns() && s.writers[i].temp == n ==>
      i in s'.left || (i in s'.writers && s'.writers[i].Owns() && s'.writers[i].temp == n)
    requires i in s.writers ==> i in s'.writers
    ensures Beside(s', n)
  {
  }

  lemma HoldsNew(s: State, s': State, i: nat, n: nat, file: nat)
    requires i in s.writers && s.writers[i].stage.Asked? && s.writers[i].Minds() && file !in s.files
    requires Temp(n) !in s.names
    requires s' == Made(s, i, s.writers[i], n, file) && file !in s.placed
    ensures Holds(s', i)
  {
  }

  /** A writer's own file changed, beside the path. */
  lemma SoundReworked(s: State, i: nat, w: Writer, file: File)
    requires Sound(s) && i in s.writers && s.writers[i].Owns() && !s.writers[i].stage.Linked?
    requires var was := s.writers[i];
      w.said == was.said && w.mode == was.mode && w.file == was.file && w.temp == was.temp && w.keeps == was.keeps
    requires w.Owns() && file.author == Some(i) && Holds(Wrote(s, i, w).(files := s.files[w.file := file]), i)
    ensures Sound(Wrote(s, i, w).(files := s.files[w.file := file]))
  {
    hide Holds, Whole, Read;
    var s' := Wrote(s, i, w).(files := s.files[w.file := file]);
    HeldFile(s, i);
    forall j | j in s'.writers && s'.writers[j].Owns() ensures Holds(s', j) {
      if j != i {
        HeldFile(s, j);
        HoldsStill(s, s', j);
      }
    }
    forall placed | placed in s.placed ensures placed in s.files && Whole(s', placed) {
      WholeFile(s, placed);
      WholeStill(s, s', placed);
    }
    forall r | r in s'.readers ensures Read(s', r) {
      ReadStill(s, s', r);
    }
    forall n | Temp(n) in s'.names ensures Beside(s', n) {
      BesideStill(s, s', n, i);
    }
  }

  /** A file of a writer's put at the path, with or without its name beside it kept. */
  lemma SoundPut(s: State, i: nat)
    requires Sound(s) && i in s.writers && s.writers[i].stage.Written?
    requires (s.writers[i].kind.Making? ==> Target !in s.names)
    ensures Sound(Put(s, i, s.writers[i]))
  {
    hide Holds, Whole, Read, Beside, Put;
    var s', w := Put(s, i, s.writers[i]), s.writers[i];
    PutIs(s, i);
    HeldFile(s, i);
    forall j | j in s'.writers && s'.writers[j].Owns() ensures Holds(s', j) {
      if j == i {
        HoldsLinked(s, i);
      } else {
        HeldFile(s, j);
        HoldsStill(s, s', j);
      }
    }
    forall placed | placed in s'.placed ensures placed in s.files && Whole(s', placed) {
      if placed in s.placed {
        WholeFile(s, placed);
        WholeStill(s, s', placed);
      } else {
        WholePut(s, i);
      }
    }
    forall r | r in s'.readers ensures Read(s', r) {
      ReadStill(s, s', r);
    }
    forall n | Temp(n) in s'.names ensures Beside(s', n) {
      BesideStill(s, s', n, i);
    }
  }

  lemma PutIs(s: State, i: nat)
    requires i in s.writers && s.writers[i].stage.Written? && (s.writers[i].kind.Making? ==> Target !in s.names)
    ensures var s', w := Put(s, i, s.writers[i]), s.writers[i];
      && i in s'.writers
      && s' == s.(writers := s.writers[i := s'.writers[i]], names := s'.names, placed := s.placed + {w.file})
      && s'.writers[i] == w.(stage := s'.writers[i].stage, won := s'.writers[i].won)
      && !s'.writers[i].Early() && (s'.writers[i].Owns() <==> w.kind.Making?) && !s'.writers[i].stage.Asked?
      && Target in s'.names && s'.names[Target] == w.file
      && (forall n | Temp(n) in s'.names :: Temp(n) in s.names && (n == w.temp ==> w.kind.Making?))
      && (forall n | Temp(n) in s.names && n != w.temp :: Temp(n) in s'.names)
      && (forall n | Temp(n) in s'.names :: s'.names[Temp(n)] == s.names[Temp(n)])
  {
  }

  lemma HoldsLinked(s: State, i: nat)
    requires i in s.writers && s.writers[i].stage.Written? && s.writers[i].kind.Making? && Target !in s.names
    requires Holds(s, i)
    ensures Holds(Put(s, i, s.writers[i]), i)
  {
  }

  lemma WholePut(s: State, i: nat)
    requires i in s.writers && s.writers[i].stage.Written? && Holds(s, i)
    requires (s.writers[i].kind.Making? ==> Target !in s.names)
    ensures Whole(Put(s, i, s.writers[i]), s.writers[i].file)
  {
  }

  lemma SoundUnlinked(s: State, i: nat)
    requires Sound(s) && i in s.writers && May(s, s.writers[i], Unlinks)
    ensures Sound(Unlinked(s, i, s.writers[i]))
  {
    hide Holds, Whole, Read, Beside;
    var s', w := Unlinked(s, i, s.writers[i]), s.writers[i];
    HeldFile(s, i);
    forall j | j in s'.writers && s'.writers[j].Owns() ensures Holds(s', j) {
      HeldFile(s, j);
      HoldsStill(s, s', j);
    }
    forall placed | placed in s.placed ensures placed in s.files && Whole(s', placed) {
      WholeFile(s, placed);
      WholeStill(s, s', placed);
    }
    forall r | r in s'.readers ensures Read(s', r) {
      ReadStill(s, s', r);
    }
    forall n | Temp(n) in s'.names ensures Beside(s', n) {
      BesideStill(s, s', n, i);
    }
  }

  lemma SoundLooked(s: State, r: nat, look: Look)
    requires Sound(s) && Enabled(s, Reads(r, look))
    ensures Sound(Looked(s, r, look))
  {
    hide Holds, Whole;
    var s' := Looked(s, r, look);
    forall j | j in s'.writers && s'.writers[j].Owns() ensures Holds(s', j) {
      HeldFile(s, j);
      HoldsStill(s, s', j);
    }
    forall file | file in s'.placed ensures file in s.files && Whole(s', file) {
      WholeFile(s, file);
      WholeStill(s, s', file);
    }
    forall n | Temp(n) in s'.names ensures Beside(s', n) {
      assert Beside(s, n);
    }
  }

  lemma SoundRemoved(s: State)
    requires Sound(s)
    ensures Sound(s.(names := s.names - {Target}))
  {
    hide Holds, Whole, Read;
    var s' := s.(names := s.names - {Target});
    forall j | j in s'.writers && s'.writers[j].Owns() ensures Holds(s', j) {
      HeldFile(s, j);
      HoldsStill(s, s', j);
    }
    forall file | file in s'.placed ensures file in s.files && Whole(s', file) {
      WholeFile(s, file);
      WholeStill(s, s', file);
    }
    forall r | r in s'.readers ensures Read(s', r) {
      ReadStill(s, s', r);
    }
    forall n | Temp(n) in s'.names ensures Beside(s', n) {
      assert Beside(s, n);
    }
  }

  predicate Moves(act: Act) {
    || act.Asks? || act.AsksInVain? || act.MakesInVain? || act.Syncs? || act.Fails? || act.PlacesInVain?
    || act.UnlinksInVain? || act.Dies?
  }

  /** A step that only moves a writer on. */
  lemma SoundMoved(s: State, i: nat, act: Act)
    requires Sound(s) && i in s.writers && May(s, s.writers[i], act)
    requires Moves(act)
    ensures (s.writers[i].Owns() ==> s.writers[i].file in s.files) && Sound(Done(s, i, s.writers[i], act))
  {
    var w := s.writers[i];
    if w.Owns() {
      HeldFile(s, i);
    }
    var s' := Done(s, i, w, act);
    MovedOn(s, i, act);
    hide Holds, Whole, Read, Onward;
    SoundOnward(s, i, s'.writers[i], s'.left);
  }

  lemma MovedOn(s: State, i: nat, act: Act)
    requires i in s.writers && May(s, s.writers[i], act) && (s.writers[i].Owns() ==> Holds(s, i))
    requires Moves(act)
    ensures var s' := Done(s, i, s.writers[i], act);
      i in s'.writers && s' == Wrote(s, i, s'.writers[i]).(left := s'.left) && Onward(s, i, s'.writers[i], s'.left)
  {
  }

  /** What every party's steps keep. */
  lemma SoundKept(s: State, e: Event)
    requires Sound(s) && Enabled(s, e)
    ensures (e.Does? ==> s.writers[e.i].Owns() ==> s.writers[e.i].file in s.files) && Sound(Apply(s, e))
  {
    if e.Does? {
      ActKept(s, e.i, e.act);
    } else if e.Reads? {
      SoundLooked(s, e.r, e.look);
    } else {
      SoundRemoved(s);
    }
  }

  lemma ActKept(s: State, i: nat, act: Act)
    requires Sound(s) && i in s.writers && May(s, s.writers[i], act)
    ensures (s.writers[i].Owns() ==> s.writers[i].file in s.files) && Sound(Done(s, i, s.writers[i], act))
  {
    var w := s.writers[i];
    if w.Owns() {
      HeldFile(s, i);
    }
    match act
    case Makes(n, file) => SoundMade(s, i, n, file);
    case Sets => SoundSet(s, i);
    case Fills(k) => SoundFilled(s, i, k);
    case Places =>
      if w.kind.Making? && Target in s.names {
        SoundRefused(s, i);
      } else {
        SoundPut(s, i);
      }
    case Unlinks => SoundUnlinked(s, i);
    case _ => SoundMoved(s, i, act);
  }

  lemma SoundRefused(s: State, i: nat)
    requires Sound(s) && i in s.writers && s.writers[i].stage.Written?
    ensures Sound(Wrote(s, i, s.writers[i].(stage := Refused)))
  {
    var w := s.writers[i].(stage := Refused);
    HeldFile(s, i);
    assert Holds(Wrote(s, i, w), i);
    hide Holds, Whole, Read;
    SoundOnward(s, i, w, s.left);
  }

  lemma SoundSet(s: State, i: nat)
    requires Sound(s) && i in s.writers && s.writers[i].stage.Opened?
    ensures s.writers[i].file in s.files && Sound(Moded(s, i, s.writers[i]))
  {
    hide Sound, Holds, Moded;
    var w := s.writers[i];
    SoundHolds(s, i);
    HeldFile(s, i);
    var file := if w.keeps.Some? then s.files[w.file].(mode := w.keeps.value) else s.files[w.file];
    HoldsSet(s, i, file);
    SoundReworked(s, i, w.(stage := Filling), file);
  }

  lemma SoundHolds(s: State, i: nat)
    requires Sound(s) && i in s.writers && s.writers[i].Owns()
    ensures Holds(s, i)
  {
  }

  lemma HoldsSet(s: State, i: nat, file: File)
    requires i in s.writers && s.writers[i].stage.Opened? && Holds(s, i)
    requires var w := s.writers[i]; file == if w.keeps.Some? then s.files[w.file].(mode := w.keeps.value) else s.files[w.file]
    ensures var w := s.writers[i];
      var s' := Wrote(s, i, w.(stage := Filling)).(files := s.files[w.file := file]);
      s' == Moded(s, i, w) && Holds(s', i)
  {
    var w := s.writers[i];
    assert s.files[w.file := s.files[w.file]] == s.files;
  }

  lemma SoundFilled(s: State, i: nat, k: nat)
    requires Sound(s) && i in s.writers && s.writers[i].stage.Filling? && s.writers[i].done + k <= |s.writers[i].said|
    ensures s.writers[i].file in s.files && Sound(Filled(s, i, s.writers[i], k))
  {
    hide Sound, Holds;
    var w := s.writers[i];
    SoundHolds(s, i);
    HeldFile(s, i);
    HoldsFilled(s, i, k);
    SoundReworked(s, i, w.(done := w.done + k), s.files[w.file].(text := w.said[..w.done + k]));
  }

  lemma HoldsFilled(s: State, i: nat, k: nat)
    requires i in s.writers && s.writers[i].stage.Filling? && s.writers[i].done + k <= |s.writers[i].said|
    requires Holds(s, i)
    ensures Holds(Filled(s, i, s.writers[i], k), i)
  {
  }

  // ------------------------------------------------------------- runs

  /** Nothing begun yet: whatever is at the path, if anything, and nothing beside it. */
  predicate Fresh(s: State) {
    && (forall i | i in s.writers :: s.writers[i].stage.Starting? && !s.writers[i].won)
    && s.names.Keys <= {Target} && s.readers == map[] && s.left == {}
    && (if Target in s.names
        then
          && s.names[Target] in s.files && s.origin == Some(s.files[s.names[Target]])
          && s.origin.value.author == None && s.placed == {s.names[Target]}
        else s.origin == None && s.placed == {})
  }

  lemma FreshSound(s: State)
    requires Fresh(s)
    ensures Sound(s) && forall i | i in s.writers :: s.writers[i].stage.Starting?
  {
  }

  ghost predicate Possible(s: State, es: seq<Event>)
    requires Sound(s)
    decreases |es|
  {
    es == [] || (Enabled(s, es[0]) && Possible(Next(s, es[0]), es[1..]))
  }

  /** A step of anybody's, from a state that is sound to one that is. */
  ghost function Next(s: State, e: Event): (s': State)
    requires Sound(s) && Enabled(s, e)
    ensures Sound(s')
  {
    SoundKept(s, e);
    Apply(s, e)
  }

  ghost function After(s: State, es: seq<Event>): (s': State)
    requires Sound(s) && Possible(s, es)
    ensures Sound(s')
    decreases |es|
  {
    if es == [] then s else After(Next(s, es[0]), es[1..])
  }

  /** What is at the path, if anything. */
  ghost function Contents(s: State): Option<string>
    requires Sound(s)
  {
    if Target in s.names then PlacedThere(s); Some(s.files[s.names[Target]].text) else None
  }

  lemma PlacedThere(s: State)
    requires Sound(s) && Target in s.names
    ensures s.names[Target] in s.placed && Whole(s, s.names[Target])
  {
  }

  /** Whether a step puts something at the path: a move there, or a link there where there is
      nothing. */
  predicate Puts(s: State, e: Event) {
    e.Does? && e.act.Places? && e.i in s.writers && (s.writers[e.i].kind.Replacing? || Target !in s.names)
  }

  lemma NextIs(s: State, e: Event)
    requires Sound(s) && Enabled(s, e)
    ensures (e.Does? ==> s.writers[e.i].Owns() ==> s.writers[e.i].file in s.files) && Next(s, e) == Apply(s, e)
  {
    hide Sound, Done, Looked;
    SoundKept(s, e);
  }

  /** A file that has been at the path is never touched again. */
  lemma PlacedUntouched(s: State, e: Event, file: nat)
    requires Sound(s) && Enabled(s, e) && file in s.placed
    ensures var s' := Next(s, e);
      file in s.files && file in s'.files && s'.files[file] == s.files[file] && file in s'.placed
  {
    hide Sound, Whole, Next, Done, Holds;
    SoundWhole(s, file);
    WholeFile(s, file);
    NextIs(s, e);
    if e.Does? {
      if s.writers[e.i].Owns() {
        SoundHolds(s, e.i);
        HeldFile(s, e.i);
      }
      PlacedKept(s, e.i, e.act, file);
    }
  }

  lemma PlacedKept(s: State, i: nat, act: Act, file: nat)
    requires i in s.writers && May(s, s.writers[i], act) && file in s.placed && file in s.files
    requires s.writers[i].Owns() ==>
        s.writers[i].file in s.files && (s.writers[i].file in s.placed <==> s.writers[i].stage.Linked?)
    ensures var s' := Done(s, i, s.writers[i], act);
      file in s'.files && s'.files[file] == s.files[file] && file in s'.placed
  {
  }

  lemma SoundWhole(s: State, file: nat)
    requires Sound(s) && file in s.placed
    ensures Whole(s, file)
  {
  }

  /** The path is not touched but by what puts something there or takes it away. */
  lemma TargetUntouched(s: State, e: Event)
    requires Sound(s) && Enabled(s, e) && !Puts(s, e) && !e.Removed?
    ensures var s' := Next(s, e);
      (Target in s'.names <==> Target in s.names) && (Target in s.names ==> s'.names[Target] == s.names[Target])
  {
    hide Sound, Next, Done, Holds;
    NextIs(s, e);
    if e.Does? {
      TargetKept(s, e.i, e.act);
    }
  }

  lemma TargetKept(s: State, i: nat, act: Act)
    requires i in s.writers && May(s, s.writers[i], act) && (s.writers[i].Owns() ==> s.writers[i].file in s.files)
    requires act.Places? ==> s.writers[i].kind.Making? && Target in s.names
    ensures var s' := Done(s, i, s.writers[i], act);
      (Target in s'.names <==> Target in s.names) && (Target in s.names ==> s'.names[Target] == s.names[Target])
  {
  }

  lemma PutThere(s: State, e: Event)
    requires Sound(s) && Enabled(s, e) && Puts(s, e)
    ensures var s', w := Next(s, e), s.writers[e.i];
      Target in s'.names && s'.names[Target] == w.file && w.file in s'.files && s'.files[w.file].text == w.said
  {
    hide Sound, Holds, Next;
    SoundHolds(s, e.i);
    HeldFile(s, e.i);
    WrittenWhole(s, e.i);
    NextIs(s, e);
  }

  lemma WrittenWhole(s: State, i: nat)
    requires i in s.writers && s.writers[i].stage.Written? && Holds(s, i)
    ensures s.files[s.writers[i].file].text == s.writers[i].said
  {
    assert s.writers[i].said[..|s.writers[i].said|] == s.writers[i].said;
  }

  /** What is at the path changes only as something whole is put there, or it is taken away. */
  lemma ChangesWhole(s: State, e: Event)
    requires Sound(s) && Enabled(s, e)
    ensures Contents(Next(s, e)) ==
      if Puts(s, e) then Some(s.writers[e.i].said) else if e.Removed? then None else Contents(s)
  {
    hide Sound, Next, Puts, Whole;
    RemovedNothing(s);
    if Puts(s, e) {
      PutThere(s, e);
    } else if !e.Removed? {
      TargetUntouched(s, e);
      if Target in s.names {
        PlacedThere(s);
        PlacedUntouched(s, e, s.names[Target]);
      }
    }
  }

  lemma RemovedNothing(s: State)
    requires Sound(s)
    ensures Target !in Next(s, Removed).names
  {
    hide Sound, Next;
    NextIs(s, Removed);
  }

  // ------------------------------------------------------------- what readers see

  predicate NoOpening(es: seq<Event>, r: nat) {
    Reads(r, Opens) !in es
  }

  lemma {:induction false} ReaderSteady(s: State, es: seq<Event>, r: nat)
    requires Sound(s) && Possible(s, es) && r in s.readers && s.readers[r].file in s.files
    requires s.readers[r].file in s.placed && NoOpening(es, r)
    ensures var s' := After(s, es);
      && r in s'.readers && s'.readers[r].file == s.readers[r].file
      && s.readers[r].file in s'.files && s'.files[s.readers[r].file] == s.files[s.readers[r].file]
    decreases |es|
  {
    hide Sound, Apply, Next;
    if es != [] {
      assert es[0] in es;
      PlacedUntouched(s, es[0], s.readers[r].file);
      ReaderStays(s, es[0], r);
      ReaderSteady(Next(s, es[0]), es[1..], r);
    }
  }

  lemma ReaderStays(s: State, e: Event, r: nat)
    requires Sound(s) && Enabled(s, e) && r in s.readers && e != Reads(r, Opens)
    ensures var s' := Next(s, e); r in s'.readers && s'.readers[r].file == s.readers[r].file
  {
    hide Sound, Next;
    NextIs(s, e);
  }

  /** Whatever every writer does in the meantime, and whatever fails, somebody who opens the path
      reads what was there when it was opened, from the start of it and nothing else. */
  lemma ReadsWhatWasThere(s: State, r: nat, es: seq<Event>)
    requires Sound(s) && Contents(s).Some? && NoOpening(es, r) && Possible(Next(s, Reads(r, Opens)), es)
    ensures var s' := After(Next(s, Reads(r, Opens)), es);
      r in s'.readers && s'.readers[r].got <= Contents(s).value
  {
    var reading := Next(s, Reads(r, Opens));
    PlacedThere(s);
    Opening(s, r);
    hide Sound, Next, Whole;
    ReaderSteady(reading, es, r);
    ReadsSound(After(reading, es), r);
  }

  lemma Opening(s: State, r: nat)
    requires Sound(s) && Target in s.names
    ensures var s' := Next(s, Reads(r, Opens));
      && r in s'.readers && s'.readers[r].file == s.names[Target] && s'.files == s.files && s'.placed == s.placed
      && s.names[Target] in s.placed && s.names[Target] in s.files
  {
    PlacedThere(s);
    hide Sound, Next;
    NextIs(s, Reads(r, Opens));
  }

  lemma ReadsSound(s: State, r: nat)
    requires Sound(s) && r in s.readers
    ensures s.readers[r].file in s.files && s.readers[r].got <= s.files[s.readers[r].file].text
  {
  }

  /** What is at the path is always what was there to begin with, or all that some writer said. */
  lemma AlwaysWhole(s: State)
    requires Sound(s)
    ensures Contents(s).Some? ==>
      || (s.origin.Some? && Contents(s).value == s.origin.value.text)
      || (exists i :: i in s.writers && Contents(s).value == s.writers[i].said)
  {
    if Target in s.names {
      PlacedThere(s);
    }
  }

  // ------------------------------------------------------------- permissions

  /** A file that is to have permissions has them before it holds anything, and keeps them. */
  lemma ModeFirst(s: State, file: nat)
    requires Sound(s) && file in s.files && s.files[file].author.Some? && s.files[file].text != ""
    requires file in s.placed || (s.files[file].author.value in s.writers && s.writers[s.files[file].author.value].Owns()
      && s.writers[s.files[file].author.value].file == file)
    ensures var i := s.files[file].author.value;
      i in s.writers && (s.writers[i].mode.Some? ==> s.files[file].mode == s.writers[i].mode.value)
  {
    if file in s.placed {
      SoundWhole(s, file);
    } else {
      SoundHolds(s, s.files[file].author.value);
    }
  }

  // ------------------------------------------------------------- what a writer that returns has done

  /** What a writer that has returned wrote has been at the path. */
  ghost predicate Delivered(s: State) {
    forall i | i in s.writers && s.writers[i].stage.Returned? ::
      var file := s.writers[i].file;
      file in s.placed && file in s.files && s.files[file].author == Some(i)
  }

  lemma DeliveredKept(s: State, e: Event)
    requires Sound(s) && Enabled(s, e) && Delivered(s)
    ensures Delivered(Next(s, e))
  {
    hide Sound, Next, Holds, Done, Looked, May;
    NextIs(s, e);
    var s' := Next(s, e);
    forall i | i in s'.writers && s'.writers[i].stage.Returned?
      ensures var file := s'.writers[i].file; file in s'.placed && file in s'.files && s'.files[file].author == Some(i)
    {
      WriterStays(s, e, i);
      if s.writers[i].stage.Returned? {
        PlacedUntouched(s, e, s.writers[i].file);
      } else {
        SoundHolds(s, i);
        HeldFile(s, i);
        ReturnedBy(s, i, e.act);
      }
    }
  }

  /** A writer changes only by its own acts, keeping what it was to say and, once it has asked,
      the permissions it is to keep; and it returns only from having its file to place or to take
      away. */
  lemma WriterStays(s: State, e: Event, i: nat)
    requires Sound(s) && Enabled(s, e)
    ensures i in Next(s, e).writers <==> i in s.writers
    ensures i in s.writers ==>
      var w, w' := s.writers[i], Next(s, e).writers[i];
      && ((e.Does? && e.i == i) || w' == w)
      && w'.said == w.said && w'.mode == w.mode && w'.kind == w.kind
      && (!w.stage.Starting? ==> !w'.stage.Starting? && w'.keeps == w.keeps)
      && (w.stage.Returned? ==> w' == w)
      && (w'.stage.Returned? ==> w.stage.Returned? || w.Owns())
  {
    hide Sound, Next, Done, Looked;
    NextIs(s, e);
    if e.Does? {
      ActorMoves(s, e.i, e.act);
    } else if e.Reads? {
      ReaderLooks(s, e.r, e.look);
    }
  }

  lemma ReaderLooks(s: State, r: nat, look: Look)
    requires Enabled(s, Reads(r, look))
    ensures Looked(s, r, look).writers == s.writers
  {
  }

  lemma ActorMoves(s: State, i: nat, act: Act)
    requires i in s.writers && May(s, s.writers[i], act) && (s.writers[i].Owns() ==> s.writers[i].file in s.files)
    ensures var s', w := Done(s, i, s.writers[i], act), s.writers[i];
      && i in s'.writers && s'.writers == s.writers[i := s'.writers[i]]
      && s'.writers[i].said == w.said && s'.writers[i].mode == w.mode && s'.writers[i].kind == w.kind
      && (!w.stage.Starting? ==> !s'.writers[i].stage.Starting? && s'.writers[i].keeps == w.keeps)
      && (s'.writers[i].stage.Returned? ==> w.Owns()) && !w.stage.Returned?
  {
  }

  lemma ReturnedBy(s: State, i: nat, act: Act)
    requires i in s.writers && May(s, s.writers[i], act) && s.writers[i].Owns() && s.writers[i].file in s.files
    requires s.files[s.writers[i].file].author == Some(i) && (s.writers[i].file in s.placed <==> s.writers[i].stage.Linked?)
    requires Done(s, i, s.writers[i], act).writers[i].stage.Returned?
    ensures var s', file := Done(s, i, s.writers[i], act), s.writers[i].file;
      s'.writers[i].file == file && file in s'.placed && file in s'.files && s'.files[file].author == Some(i)
  {
  }

  lemma {:induction false} RunDelivers(s: State, es: seq<Event>, i: nat)
    requires Sound(s) && Possible(s, es) && Delivered(s) && i in s.writers
    ensures Delivered(After(s, es)) && i in After(s, es).writers
    ensures !s.writers[i].stage.Starting? ==> After(s, es).writers[i].keeps == s.writers[i].keeps
    ensures After(s, es).writers[i].said == s.writers[i].said && After(s, es).writers[i].mode == s.writers[i].mode
    ensures After(s, es).wide == s.wide
    decreases |es|
  {
    hide Sound, Next, Delivered;
    if es != [] {
      DeliveredKept(s, es[0]);
      WriterStays(s, es[0], i);
      WideStays(s, es[0]);
      RunDelivers(Next(s, es[0]), es[1..], i);
    }
  }

  lemma FreshDelivered(s: State)
    requires Fresh(s)
    ensures Sound(s) && Delivered(s)
  {
    FreshSound(s);
  }

  lemma {:induction false} AllDelivered(s: State, es: seq<Event>)
    requires Sound(s) && Possible(s, es) && Delivered(s)
    ensures Delivered(After(s, es))
    decreases |es|
  {
    hide Sound, Next, Delivered;
    if es != [] {
      DeliveredKept(s, es[0]);
      AllDelivered(Next(s, es[0]), es[1..]);
    }
  }

  lemma WideStays(s: State, e: Event)
    requires Sound(s) && Enabled(s, e)
    ensures Next(s, e).wide == s.wide
  {
    hide Sound, Next;
    NextIs(s, e);
  }

  /** A writer that has returned has had all it was given at the path, with the permissions it was
      given; a replacement given none has those of what was there when it looked, or those a new
      file gets where nothing was. */
  lemma ReturnedWhole(s: State, i: nat, es: seq<Event>)
    requires Sound(s) && Delivered(s) && i in s.writers && s.writers[i].stage.Starting?
    requires Possible(Next(s, Does(i, Asks)), es) && i in After(Next(s, Does(i, Asks)), es).writers
    requires After(Next(s, Does(i, Asks)), es).writers[i].stage.Returned?
    ensures var s', w := After(Next(s, Does(i, Asks)), es), s.writers[i];
      var file := s'.writers[i].file;
      && file in s'.placed && file in s'.files && s'.files[file].text == w.said
      && (w.mode.Some? ==> s'.files[file].mode == w.mode.value)
      && (w.mode.None? && w.kind.Replacing? && Target in s.names ==>
            s.names[Target] in s.files && s'.files[file].mode == s.files[s.names[Target]].mode)
      && (w.mode.None? && (w.kind.Making? || Target !in s.names) ==> s'.files[file].mode == s.wide)
  {
    var asked := Next(s, Does(i, Asks));
    DeliveredKept(s, Does(i, Asks));
    AskedFor(s, i);
    ThereKept(s);
    hide Sound, Next, Kept;
    RunDelivers(asked, es, i);
    var s' := After(asked, es);
    SoundWhole(s', s'.writers[i].file);
  }

  lemma ThereKept(s: State)
    requires Sound(s)
    ensures if Target in s.names then s.names[Target] in s.files && Kept(s) == Some(s.files[s.names[Target]].mode)
            else Kept(s) == None
  {
    if Target in s.names {
      PlacedThere(s);
    }
  }

  lemma AskedFor(s: State, i: nat)
    requires Sound(s) && i in s.writers && s.writers[i].stage.Starting?
    ensures var s', w := Next(s, Does(i, Asks)), s.writers[i];
      && i in s'.writers && s'.wide == s.wide
      && s'.writers[i] == w.(stage := Asked, keeps := if w.mode.None? && w.kind.Replacing? then Kept(s) else w.mode)
  {
    hide Sound, Next, Kept;
    NextIs(s, Does(i, Asks));
  }

  // ------------------------------------------------------------- nothing left behind

  predicate LeavesIt(e: Event, i: nat) {
    e.Does? && e.i == i && (e.act.UnlinksInVain? || e.act.Dies?)
  }

  lemma {:induction false} LeftOnlyBy(s: State, es: seq<Event>, i: nat)
    requires Sound(s) && Possible(s, es) && i in After(s, es).left
    ensures i in s.left || exists e :: e in es && LeavesIt(e, i)
    decreases |es|
  {
    hide Sound, Next;
    if es != [] {
      assert es[0] in es;
      LeftOnly(s, es[0], i);
      LeftOnlyBy(Next(s, es[0]), es[1..], i);
      if i !in s.left && i !in Next(s, es[0]).left {
        var e :| e in es[1..] && LeavesIt(e, i);
        assert e in es;
      }
    }
  }

  lemma LeftOnly(s: State, e: Event, i: nat)
    requires Sound(s) && Enabled(s, e)
    ensures i in Next(s, e).left ==> i in s.left || LeavesIt(e, i)
  {
    hide Sound, Next;
    NextIs(s, e);
  }

  /** A writer that has returned, or raised, has nothing of its own beside the path, unless it was
      taking its file away that failed. */
  lemma NothingLeft(s: State, es: seq<Event>, i: nat)
    requires Fresh(s) && Sound(s) && Possible(s, es) && i in After(s, es).writers
    requires After(s, es).writers[i].stage.Returned? || After(s, es).writers[i].stage.Raised?
    requires forall e | e in es :: !LeavesIt(e, i)
    ensures var s' := After(s, es);
      forall n | Temp(n) in s'.names :: s'.names[Temp(n)] in s'.files && s'.files[s'.names[Temp(n)]].author != Some(i)
  {
    var s' := After(s, es);
    if i in s'.left {
      LeftOnlyBy(s, es, i);
    }
    forall n | Temp(n) in s'.names ensures s'.names[Temp(n)] in s'.files && s'.files[s'.names[Temp(n)]].author != Some(i) {
      assert Beside(s', n);
    }
  }

  // ------------------------------------------------------------- only one makes it

  /** Nobody moves anything over the path or takes it away. */
  predicate Undisturbed(s: State, e: Event) {
    !e.Removed? && (e.Does? && e.act.Places? && e.i in s.writers ==> s.writers[e.i].kind.Making?)
  }

  ghost predicate Race(s: State, es: seq<Event>)
    requires Sound(s) && Possible(s, es)
    decreases |es|
  {
    es == [] || (Undisturbed(s, es[0]) && Race(Next(s, es[0]), es[1..]))
  }

  predicate Tries(e: Event) {
    e.Does? && e.act.Places?
  }

  /** Whoever won is the one whose file is at the path, and there is one if there is a file. */
  ghost predicate OneWinner(s: State) {
    && (forall i | i in s.writers && s.writers[i].won ::
          Target in s.names && s.names[Target] in s.files && s.files[s.names[Target]].author == Some(i))
    && (Target in s.names ==> exists i :: i in s.writers && s.writers[i].won)
    && (forall i | i in s.writers && s.writers[i].kind.Making? && (s.writers[i].stage.Linked? || s.writers[i].stage.Returned?) ::
          s.writers[i].won)
  }

  lemma OneWinnerKept(s: State, e: Event)
    requires Sound(s) && Enabled(s, e) && OneWinner(s) && Undisturbed(s, e)
    ensures OneWinner(Next(s, e)) && (Target in s.names || Tries(e) ==> Target in Next(s, e).names)
  {
    hide Sound, Next, Holds, Done, OneWinner;
    NextIs(s, e);
    if e.Does? {
      if s.writers[e.i].Owns() {
        SoundHolds(s, e.i);
        HeldFile(s, e.i);
      }
      if Target in s.names {
        PlacedThere(s);
        PlacedUntouched(s, e, s.names[Target]);
      }
      OneWinnerActed(s, e.i, e.act);
    } else {
      OneWinnerRead(s, e.r, e.look);
    }
  }

  lemma OneWinnerRead(s: State, r: nat, look: Look)
    requires OneWinner(s) && Enabled(s, Reads(r, look))
    ensures OneWinner(Looked(s, r, look)) && (Target in s.names ==> Target in Looked(s, r, look).names)
  {
    var s' := Looked(s, r, look);
    if Target in s.names {
      var i :| i in s.writers && s.writers[i].won;
      assert s'.writers[i].won;
    }
  }

  lemma OneWinnerActed(s: State, i: nat, act: Act)
    requires i in s.writers && May(s, s.writers[i], act) && OneWinner(s) && (act.Places? ==> s.writers[i].kind.Making?)
    requires s.writers[i].Owns() ==> s.writers[i].file in s.files && s.files[s.writers[i].file].author == Some(i)
    requires Target in s.names ==>
      var s' := Done(s, i, s.writers[i], act);
      s.names[Target] in s.files && s.names[Target] in s'.files && s'.files[s.names[Target]] == s.files[s.names[Target]]
    ensures var s' := Done(s, i, s.writers[i], act);
      OneWinner(s') && (Target in s.names || act.Places? ==> Target in s'.names)
  {
    var s' := Done(s, i, s.writers[i], act);
    WonActed(s, i, act);
    hide Done, May;
    if Target in s.names {
      var j :| j in s.writers && s.writers[j].won;
      assert s'.writers[j].won;
    } else if act.Places? {
      assert s'.writers[i].won;
    }
  }

  /** What an act does to who has won, and to what is at the path. */
  lemma WonActed(s: State, i: nat, act: Act)
    requires i in s.writers && May(s, s.writers[i], act) && (act.Places? ==> s.writers[i].kind.Making?)
    requires s.writers[i].Owns() ==> s.writers[i].file in s.files
    ensures var w, s' := s.writers[i], Done(s, i, s.writers[i], act);
      var links := act.Places? && Target !in s.names;
      && s'.writers == s.writers[i := s'.writers[i]]
      && s'.writers[i].kind == w.kind && s'.writers[i].won == (w.won || links)
      && (s'.writers[i].stage.Linked? || s'.writers[i].stage.Returned? ==>
            links || w.stage.Linked? || w.stage.Returned?)
      && (Target in s'.names <==> Target in s.names || links)
      && (Target in s.names ==> s'.names[Target] == s.names[Target])
      && (links ==> s'.names[Target] == w.file && s'.files == s.files)
  {
  }

  lemma {:induction false} RaceKept(s: State, es: seq<Event>)
    requires Sound(s) && Possible(s, es) && OneWinner(s) && Race(s, es)
    ensures OneWinner(After(s, es)) && (Target in s.names || (exists e | e in es :: Tries(e)) ==> Target in After(s, es).names)
    ensures Target !in s.names && (forall e | e in es :: !Tries(e)) ==> Target !in After(s, es).names
    decreases |es|
  {
    hide Sound, Next, OneWinner;
    if es != [] {
      assert es[0] in es;
      OneWinnerKept(s, es[0]);
      if !Tries(es[0]) {
        TargetUntouched(s, es[0]);
      }
      RaceKept(Next(s, es[0]), es[1..]);
    }
  }

  lemma WinnerWhole(s: State, i: nat)
    requires Sound(s) && OneWinner(s) && i in s.writers && s.writers[i].won
    ensures Contents(s) == Some(s.writers[i].said)
  {
    PlacedThere(s);
  }

  /** Of any number making a file that is not there, with nobody moving anything over it or taking
      it away: once any has come to link its own there, exactly one has, what is there is all of
      what that one said, and no other returns; before that there is nothing there. */
  lemma OneMakes(s: State, es: seq<Event>) returns (winner: Option<nat>)
    requires Fresh(s) && Target !in s.names && Sound(s) && Possible(s, es) && Race(s, es)
    ensures var s' := After(s, es);
      && (winner.Some? <==> exists e | e in es :: Tries(e))
      && (forall i | i in s'.writers :: s'.writers[i].won <==> winner == Some(i))
      && (forall i | i in s'.writers && s'.writers[i].kind.Making? && s'.writers[i].stage.Returned? :: winner == Some(i))
      && (if winner.Some? then winner.value in s'.writers && Contents(s') == Some(s'.writers[winner.value].said)
          else Contents(s') == None)
  {
    var s' := After(s, es);
    RaceKept(s, es);
    if Target in s'.names {
      var i :| i in s'.writers && s'.writers[i].won;
      winner := Some(i);
      WinnerWhole(s', i);
    } else {
      winner := None;
    }
  }
}
