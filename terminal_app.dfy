/** The terminal front end: the intro and end scenes, the registry that maps
    scene ids to scenes, and the driver loop that runs scenes until the
    session stops. Input is a queue of lines and output a log of lines. */
module TerminalApp {
  import opened Engine

  const Welcome: string := "Welcome to Orison. What is your name?"
  const PressEnter: string := "Press Enter to begin your first audit."
  const Goodbye: string := "This is the end of the demo scaffold. Goodbye."

  /** The line that greets a newly named player. */
  function Greeting(name: string): string {
    "Hello, " + name + "."
  }

  /** A line that greets the player, whatever the name. */
  predicate IsGreeting(line: string) {
    |line| >= 7 && line[..7] == "Hello, "
  }

  /** The line written when the current scene id names no scene. */
  function UnknownScene(sceneId: string): string {
    "Unknown scene: " + sceneId
  }

  /** The input and output ports: lines still to be read, lines written. */
  class Ports {
    var pending: seq<string>
    var log: seq<string>

    constructor (lines: seq<string>)
      ensures pending == lines && log == []
    {
      pending := lines;
      log := [];
    }

    /** Takes the next input line; the prompt is advisory and not logged. */
    method ReadLine(prompt: string) returns (line: string)
      requires pending != []
      modifies this
      ensures line == old(pending)[0] && pending == old(pending)[1..]
      ensures log == old(log)
    {
      line := pending[0];
      pending := pending[1..];
    }

    /** Appends one line to the output. */
    method WriteLine(text: string)
      modifies this
      ensures log == old(log) + [text]
      ensures pending == old(pending)
    {
      log := log + [text];
    }
  }

  /** The scenes of the terminal app. */
  datatype Scene = Intro | End {
    function SceneId(): string {
      match this
      case Intro => "intro"
      case End => "end"
    }
  }

  /** `SCENES`: the registry, keyed by scene id. */
  const Scenes: map<string, Scene> := map["intro" := Intro, "end" := End]

  /** The registry holds exactly the two scenes, each under its own id. */
  lemma RegistryKeyedById()
    ensures Scenes.Keys == {"intro", "end"}
    ensures forall id :: id in Scenes ==> Scenes[id].SceneId() == id
    ensures forall scene: Scene :: scene.SceneId() in Scenes && Scenes[scene.SceneId()] == scene
  {
  }

  // ---------------------------------------------------------------------
  // What one scene does, as a function of the state and the input.

  /** The state, the unread input and the lines written after a step. */
  datatype Step = Step(state: Session, rest: seq<string>, out: seq<string>)

  /** How many input lines a scene reads from state `s`. */
  function LinesRead(scene: Scene, s: Session): nat {
    match scene
    case Intro => if s.playerName == "" then 2 else 1
    case End => 0
  }

  /** `IntroScene.run`: asks for a name if there is none, waits for one more
      line and moves to the end scene. */
  function IntroStep(s: Session, input: seq<string>): (r: Step)
    requires |input| >= LinesRead(Intro, s)
    ensures r.state.currentSceneId == "end" && r.state.running == s.running
    ensures r.state.playerName == if s.playerName == "" then input[0] else s.playerName
    ensures r.rest == input[LinesRead(Intro, s)..]
    ensures (exists i :: 0 <= i < |r.out| && IsGreeting(r.out[i])) <==> s.playerName == ""
    ensures s.playerName == "" ==> Greeting(input[0]) in r.out
  {
    assert !IsGreeting(Welcome) by { assert Welcome[0] == 'W'; }
    assert !IsGreeting(PressEnter) by { assert PressEnter[0] == 'P'; }
    if s.playerName == "" then
      var name := input[0];
      var out := [Welcome, Greeting(name), PressEnter];
      assert IsGreeting(out[1]);
      Step(s.(playerName := name).Goto("end"), input[2..], out)
    else
      Step(s.Goto("end"), input[1..], [Welcome, PressEnter])
  }

  /** `EndScene.run`: says goodbye and stops the session. */
  function EndStep(s: Session, input: seq<string>): (r: Step)
    ensures !r.state.running
    ensures r.state.playerName == s.playerName && r.state.currentSceneId == s.currentSceneId
    ensures r.rest == input && r.out == [Goodbye]
  {
    Step(s.Stop(), input, [Goodbye])
  }

  /** What running `scene` does: it reads exactly its lines, never
      restarts a stopped session, and a running scene entered under its own
      id brings the loop closer to its end. */
  function SceneStep(scene: Scene, s: Session, input: seq<string>): (r: Step)
    requires |input| >= LinesRead(scene, s)
    ensures r.rest == input[LinesRead(scene, s)..]
    ensures r.state.running ==> s.running
    ensures s.running && s.currentSceneId == scene.SceneId() ==> Measure(r.state) < Measure(s)
  {
    match scene
    case Intro => IntroStep(s, input)
    case End => EndStep(s, input)
  }

  // ---------------------------------------------------------------------
  // The whole run of the driver loop.

  /** How many more scenes the loop may run from `s`. */
  function Measure(s: Session): nat {
    if !s.running then 0 else if s.currentSceneId == "end" then 1 else 2
  }

  /** How many input lines the loop reads from `s` on. */
  function InputNeeded(s: Session): nat {
    if s.running && s.currentSceneId in Scenes then LinesRead(Scenes[s.currentSceneId], s) else 0
  }

  /** The final state, the unread input, the lines written and the scenes
      invoked, in order, by a run of the loop. */
  datatype Run = Run(final: Session, rest: seq<string>, out: seq<string>, invoked: seq<Scene>)

  /** The driver loop of `run_terminal_app`, from state `s` on input
      `input`: while running, look the scene up and run it; stop on an
      unknown id. */
  function Drive(s: Session, input: seq<string>): (r: Run)
    requires |input| >= InputNeeded(s)
    ensures |r.invoked| <= Measure(s) <= 2
    ensures r.invoked == [] || r.invoked == [End] || r.invoked == [Intro, End]
    ensures !r.final.running || r.final.currentSceneId !in Scenes
    ensures s.currentSceneId in Scenes ==> !r.final.running
    decreases Measure(s)
  {
    if !s.running then Run(s, input, [], [])
    else if s.currentSceneId !in Scenes then Run(s, input, [UnknownScene(s.currentSceneId)], [])
    else
      var scene := Scenes[s.currentSceneId];
      var step := SceneStep(scene, s, input);
      var r := Drive(step.state, step.rest);
      Run(r.final, r.rest, step.out + r.out, [scene] + r.invoked)
  }

  /** One turn of the loop at a known scene: run it, then carry on from the
      state and input it leaves. */
  lemma DriveTurn(s: Session, input: seq<string>)
    requires s.running && s.currentSceneId in Scenes && |input| >= InputNeeded(s)
    ensures var step := SceneStep(Scenes[s.currentSceneId], s, input);
      |step.rest| >= InputNeeded(step.state) &&
      Measure(step.state) < Measure(s) &&
      var r := Drive(step.state, step.rest);
      Drive(s, input) == Run(r.final, r.rest, step.out + r.out, [Scenes[s.currentSceneId]] + r.invoked)
  {
  }

  /** A stopped session runs no scene and writes nothing. */
  lemma StoppedRunsNothing(s: Session, input: seq<string>)
    requires !s.running
    ensures Drive(s, input) == Run(s, input, [], [])
  {
  }

  /** An unknown scene id is reported once and runs no scene. */
  lemma UnknownSceneHalts(s: Session, input: seq<string>)
    requires s.running && s.currentSceneId !in Scenes
    ensures Drive(s, input) == Run(s, input, [UnknownScene(s.currentSceneId)], [])
  {
  }

  /** From a fresh state the loop runs the intro and then the end scene:
      it reads the name and one more line, greets the player and stops. */
  lemma {:induction false} FreshRun(input: seq<string>)
    requires |input| >= 2
    ensures var r := Drive(Initial, input);
      r.invoked == [Intro, End] &&
      r.final == Session(input[0], "end", false) &&
      r.rest == input[2..] &&
      r.out == [Welcome, Greeting(input[0]), PressEnter, Goodbye]
  {
    var mid := Session(input[0], "end", true);
    assert IntroStep(Initial, input) == Step(mid, input[2..], [Welcome, Greeting(input[0]), PressEnter]);
    assert Drive(mid, input[2..]) == Run(mid.Stop(), input[2..], [Goodbye], [End]);
  }

  /** A named player at the intro is not greeted again: one line is read and
      the name is kept. */
  lemma {:induction false} NamedRun(name: string, input: seq<string>)
    requires name != "" && |input| >= 1
    ensures var r := Drive(Session(name, "intro", true), input);
      r.invoked == [Intro, End] &&
      r.final == Session(name, "end", false) &&
      r.rest == input[1..] &&
      r.out == [Welcome, PressEnter, Goodbye]
  {
    var mid := Session(name, "end", true);
    assert IntroStep(Session(name, "intro", true), input) == Step(mid, input[1..], [Welcome, PressEnter]);
    assert Drive(mid, input[1..]) == Run(mid.Stop(), input[1..], [Goodbye], [End]);
  }

  // ---------------------------------------------------------------------
  // The scenes and the loop, over a mutable state and the ports.

  /** `IntroScene.run`. */
  method RunIntro(state: GameState, io: Ports)
    requires |io.pending| >= LinesRead(Intro, state.View())
    modifies state, io
    ensures var r := IntroStep(old(state.View()), old(io.pending));
      state.View() == r.state && io.pending == r.rest && io.log == old(io.log) + r.out
  {
    io.WriteLine(Welcome);
    if state.playerName == "" {
      var name := io.ReadLine("> ");
      state.playerName := name;
      io.WriteLine(Greeting(state.playerName));
    }
    io.WriteLine(PressEnter);
    var _ := io.ReadLine("");
    state.Goto("end");
  }

  /** `EndScene.run`. */
  method RunEnd(state: GameState, io: Ports)
    modifies state, io
    ensures var r := EndStep(old(state.View()), old(io.pending));
      state.View() == r.state && io.pending == r.rest && io.log == old(io.log) + r.out
  {
    io.WriteLine(Goodbye);
    state.Stop();
  }

  /** Runs one scene: the dispatch `scene.run(state, io, io)`. */
  method RunScene(scene: Scene, state: GameState, io: Ports)
    requires |io.pending| >= LinesRead(scene, state.View())
    modifies state, io
    ensures var r := SceneStep(scene, old(state.View()), old(io.pending));
      state.View() == r.state && io.pending == r.rest && io.log == old(io.log) + r.out
  {
    match scene
    case Intro => RunIntro(state, io);
    case End => RunEnd(state, io);
  }

  /** The loop of `run_terminal_app` on a given state and ports; returns the
      scenes it invoked, in order. */
  method RunLoop(state: GameState, io: Ports) returns (invoked: seq<Scene>)
    requires |io.pending| >= InputNeeded(state.View())
    modifies state, io
    ensures var r := Drive(old(state.View()), old(io.pending));
      state.View() == r.final && io.pending == r.rest && io.log == old(io.log) + r.out &&
      invoked == r.invoked
  {
    ghost var whole := Drive(state.View(), io.pending);
    ghost var written: seq<string> := [];
    invoked := [];
    while state.running
      invariant |io.pending| >= InputNeeded(state.View())
      invariant io.log == old(io.log) + written
      invariant var r := Drive(state.View(), io.pending);
        whole == Run(r.final, r.rest, written + r.out, invoked + r.invoked)
      decreases Measure(state.View())
    {
      if state.currentSceneId !in Scenes {
        UnknownSceneHalts(state.View(), io.pending);
        io.WriteLine(UnknownScene(state.currentSceneId));
        written := written + [UnknownScene(state.currentSceneId)];
        break;
      }
      var scene := Scenes[state.currentSceneId];
      ghost var before, input := state.View(), io.pending;
      ghost var step := SceneStep(scene, before, input);
      DriveTurn(before, input);
      RunScene(scene, state, io);
      assert state.View() == step.state && io.pending == step.rest;
      ghost var r := Drive(step.state, step.rest);
      assert written + step.out + r.out == written + (step.out + r.out);
      assert invoked + [scene] + r.invoked == invoked + ([scene] + r.invoked);
      written := written + step.out;
      invoked := invoked + [scene];
    }
    if !state.running {
      StoppedRunsNothing(state.View(), io.pending);
    }
  }

  /** `run_terminal_app`: a fresh state, the given input lines, and the loop.
      Returns what was written, the scenes invoked and the final state. */
  method RunTerminalApp(lines: seq<string>) returns (output: seq<string>, invoked: seq<Scene>, final: Session)
    requires |lines| >= 2
    ensures invoked == [Intro, End]
    ensures output == [Welcome, Greeting(lines[0]), PressEnter, Goodbye]
    ensures !final.running && final.playerName == lines[0] && final.currentSceneId == "end"
  {
    var state := new GameState();
    var io := new Ports(lines);
    invoked := RunLoop(state, io);
    FreshRun(lines);
    output := io.log;
    final := state.View();
  }
}
