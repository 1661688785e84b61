/** One pod, its data directory and the wipe-data script, command by command. */
module Volume {
  import opened ApiObjects

  type Files = map<string, string>

  const MARKER: string := ".operator-wipe-"

  function MarkerFor(version: string): string {
    MARKER + version
  }

  predicate IsMarker(name: string) {
    MARKER <= name
  }

  /** Names matched by the shell pattern * : everything that does not start with a dot. */
  predicate Plain(name: string) {
    name != "" && name[0] != '.'
  }

  /** Names matched by .[!.]* : a dot and then something that is not a dot. */
  predicate Dotted(name: string) {
    |name| >= 2 && name[0] == '.' && name[1] != '.'
  }

  function Without(files: Files, drop: string -> bool): Files {
    map name | name in files && !drop(name) :: files[name]
  }

  /** Command number `i` of the script after its test for the marker. */
  function Command(files: Files, version: string, i: nat): Files {
    if i == 0 then Without(files, Plain)
    else if i == 1 then Without(files, Dotted)
    else if MarkerFor(version) in files then files
    else files[MarkerFor(version) := ""]
  }

  /** The script run for its first `n` commands, as if the pod died then. */
  function Script(files: Files, version: string, n: nat): Files {
    if n == 0 then files else Command(Script(files, version, n - 1), version, n - 1)
  }

  const COMMANDS: nat := 3

  /** The names that command `i` removes. */
  predicate Matches(i: nat, name: string) {
    (i == 0 && Plain(name)) || (i == 1 && Dotted(name))
  }

  /** A removal that dies half way: of the names it removes, `left` says which still exist and how. */
  function Torn(files: Files, i: nat, left: Files): Files {
    map name | name in files && (Matches(i, name) ==> name in left) ::
      if Matches(i, name) then left[name] else files[name]
  }

  class DataDirectory {
    var files: Files

    constructor (files: Files)
      ensures this.files == files
    {
      this.files := files;
    }

    /** The script, cut off after `budget` commands, and in the midst of the next one if `left` says
        what that had not removed yet; `done` says that it ended by itself. */
    method Wipe(version: string, budget: nat, left: Option<Files>) returns (done: bool)
      modifies this
      ensures MarkerFor(version) in old(files) ==> files == old(files) && done
      ensures MarkerFor(version) !in old(files) && budget >= COMMANDS ==>
              files == Script(old(files), version, COMMANDS) && done
      ensures MarkerFor(version) !in old(files) && budget < COMMANDS ==>
                && !done
                && files == if left.Some? then Torn(Script(old(files), version, budget), budget, left.value)
                            else Script(old(files), version, budget)
    {
      if MarkerFor(version) in files {
        return true;
      }
      var i := 0;
      while i < budget && i < COMMANDS
        invariant i <= budget && i <= COMMANDS
        invariant files == Script(old(files), version, i)
      {
        if i == 0 {
          files := map name | name in files && !Plain(name) :: files[name];
        } else if i == 1 {
          files := map name | name in files && !Dotted(name) :: files[name];
        } else if MarkerFor(version) !in files {
          files := files[MarkerFor(version) := ""];
        }
        i := i + 1;
      }
      done := i == COMMANDS;
      if !done && left.Some? {
        files := Torn(files, i, left.value);
      }
    }
  }

  /** A complete script leaves the marker and, of the old files, only those starting with two dots. */
  lemma WipeRemoves(files: Files, version: string, name: string)
    requires MarkerFor(version) !in files && name != "" && name != "."
    ensures var n := Script(files, version, COMMANDS);
            && MarkerFor(version) in n
            && (name in n && name != MarkerFor(version) <==> name in files && ".." <= name)
  {
    var one := Script(files, version, 1);
    var two := Script(files, version, 2);
    assert Script(files, version, 0) == files;
    assert name in one <==> name in files && !Plain(name);
    assert name in two <==> name in one && !Dotted(name);
    assert MarkerFor(version)[1] == 'o';
  }

  /** A script that died anywhere and is started again leaves the same names as one that did not. */
  lemma InterruptedWipe(files: Files, version: string, n: nat, left: Files, name: string)
    requires MarkerFor(version) !in files && n < COMMANDS && name != "" && name != "."
    ensures var again := Torn(Script(files, version, n), n, left);
            && MarkerFor(version) !in again
            && (name in Script(again, version, COMMANDS) <==> name in Script(files, version, COMMANDS))
  {
    var again := Torn(Script(files, version, n), n, left);
    var one := Script(files, version, 1);
    assert Script(files, version, 0) == files;
    assert Script(files, version, 2) == Without(one, Dotted);
    assert name in one <==> name in files && !Plain(name);
    assert name in again && ".." <= name <==> name in files && ".." <= name;
    WipeRemoves(files, version, name);
    WipeRemoves(again, version, name);
  }

  // ---------------------------------------------------------------- pods

  /** Initialising: the script has executed `done` commands; Serving: the server is up. */
  datatype Pod = Down | Initialising(version: string, done: nat) | Serving
  datatype Node = Node(files: Files, pod: Pod)

  datatype PodEvent =
    | Start(wipe: Option<string>)   // a new pod from the current template
    | Proceed                       // the init container executes its next command, or ends
    | Crash
    | Tear(left: Files)             // a crash in the midst of the next command
    | Put(name: string, text: string)
    | Remove(name: string)

  /** The server keeps away from the operator's marker files. */
  function Lives(x: Node, e: PodEvent): Node {
    match e
    case Start(wipe) =>
      if !x.pod.Down? then x
      else if wipe.None? || MarkerFor(wipe.value) in x.files then x.(pod := Serving)
      else x.(pod := Initialising(wipe.value, 0))
    case Proceed =>
      if !x.pod.Initialising? then x
      else if x.pod.done < COMMANDS then
        Node(Command(x.files, x.pod.version, x.pod.done), Initialising(x.pod.version, x.pod.done + 1))
      else x.(pod := Serving)
    case Crash => x.(pod := Down)
    case Tear(left) =>
      if x.pod.Initialising? then Node(Torn(x.files, x.pod.done, left), Down) else x
    case Put(name, text) => if x.pod.Serving? && !IsMarker(name) then x.(files := x.files[name := text]) else x
    case Remove(name) => if x.pod.Serving? && !IsMarker(name) then x.(files := x.files - {name}) else x
  }

  function Life(x: Node, es: seq<PodEvent>): Node
    decreases es
  {
    if es == [] then x else Life(Lives(x, es[0]), es[1..])
  }

  predicate OneMarker(files: Files) {
    forall a, b :: a in files && b in files && IsMarker(a) && IsMarker(b) ==> a == b
  }

  ghost predicate NodeOk(x: Node) {
    && OneMarker(x.files)
    && (x.pod.Initialising? && x.pod.done == 2 ==> forall a :: a in x.files ==> !IsMarker(a))
    && (x.pod.Initialising? && x.pod.done >= 3 ==> MarkerFor(x.pod.version) in x.files)
  }

  lemma MarkerShape(version: string, name: string)
    ensures IsMarker(MarkerFor(version)) && (IsMarker(name) ==> Dotted(name) && !Plain(name))
  {
  }

  lemma NodeStep(x: Node, e: PodEvent)
    requires NodeOk(x)
    ensures NodeOk(Lives(x, e))
  {
  }

  /** A volume never holds two markers, whatever crashes when. */
  lemma {:induction false} OneMarkerTheorem(x: Node, es: seq<PodEvent>)
    requires NodeOk(x)
    ensures NodeOk(Life(x, es)) && OneMarker(Life(x, es).files)
    decreases es
  {
    if es != [] {
      NodeStep(x, es[0]);
      OneMarkerTheorem(Lives(x, es[0]), es[1..]);
    }
  }

  // ---------------------------------------------------------------- wiped at most once

  /** Pods come from templates with a wipe-data container for `v` or with none. */
  predicate Under(e: PodEvent, v: string) {
    e.Start? ==> e.wipe.None? || e.wipe == Some(v)
  }

  predicate Touches(e: PodEvent, name: string) {
    (e.Put? || e.Remove?) && e.name == name
  }

  /** The server of version `v` has been up: the marker is there and no script is running. */
  predicate Wiped(x: Node, v: string) {
    MarkerFor(v) in x.files && !x.pod.Initialising?
  }

  lemma ServingMeansWiped(x: Node, e: PodEvent, v: string)
    requires NodeOk(x) && (e.Start? ==> e.wipe == Some(v)) && !x.pod.Serving? && Lives(x, e).pod.Serving?
    requires x.pod.Initialising? ==> x.pod.version == v
    ensures Wiped(Lives(x, e), v)
  {
  }

  lemma WipedStep(x: Node, e: PodEvent, v: string, name: string)
    requires Wiped(x, v) && Under(e, v)
    ensures Wiped(Lives(x, e), v)
    ensures !Touches(e, name) && name in x.files ==>
            name in Lives(x, e).files && Lives(x, e).files[name] == x.files[name]
  {
  }

  /** What the server under a template for `v` has stored survives every crash and restart under
      `v` or without a wipe-data container, until the server itself changes it. */
  lemma {:induction false} WipedOnceTheorem(x: Node, es: seq<PodEvent>, v: string, name: string)
    requires Wiped(x, v) && name in x.files
    requires forall e :: e in es ==> Under(e, v) && !Touches(e, name)
    ensures var n := Life(x, es); Wiped(n, v) && name in n.files && n.files[name] == x.files[name]
    decreases es
  {
    if es != [] {
      WipedStep(x, es[0], v, name);
      WipedOnceTheorem(Lives(x, es[0]), es[1..], v, name);
    }
  }

  /** A pod started from a template for another version wipes that data: its marker is missing. */
  lemma OtherVersionWipes(x: Node, v: string, other: string, name: string)
    requires OneMarker(x.files) && Wiped(x, v) && x.pod.Down? && other != v
    requires name in x.files && Plain(name)
    ensures var n := Life(x, [Start(Some(other)), Proceed, Proceed, Proceed, Proceed]);
            n.pod.Serving? && name !in n.files && MarkerFor(v) !in n.files
  {
    MarkerShape(v, name);
    MarkerShape(other, name);
    assert MarkerFor(v)[|MARKER|..] == v && MarkerFor(other)[|MARKER|..] == other;
    var a := Lives(x, Start(Some(other)));
    assert a == Node(x.files, Initialising(other, 0));
    var b := Lives(a, Proceed);
    var c := Lives(b, Proceed);
    var d := Lives(c, Proceed);
    var n := Lives(d, Proceed);
    assert name !in b.files && MarkerFor(v) !in c.files;
    var es := [Start(Some(other)), Proceed, Proceed, Proceed, Proceed];
    assert es[1..] == [Proceed, Proceed, Proceed, Proceed];
    assert Life(x, es) == Life(a, es[1..]) == Life(b, es[1..][1..]) == Life(c, [Proceed, Proceed]) ==
           Life(d, [Proceed]) == n;
  }
}
