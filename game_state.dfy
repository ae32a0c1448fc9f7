/** The session record shared by every scene: who is playing, which scene
    comes next, and whether the game is still running. */
module Engine {

  /** The value of a game state at one moment. */
  datatype Session = Session(playerName: string, currentSceneId: string, running: bool) {

    /** The effect of `stop`. */
    function Stop(): Session {
      this.(running := false)
    }

    /** The effect of `goto`. */
    function Goto(sceneId: string): Session {
      this.(currentSceneId := sceneId)
    }
  }

  /** A fresh state: no name yet, at the intro, running. */
  const Initial: Session := Session("", "intro", true)

  /** `GameState`: the mutable session record. */
  class GameState {
    var playerName: string
    var currentSceneId: string
    var running: bool

    /** The current value of this state. */
    function View(): Session
      reads this
    {
      Session(playerName, currentSceneId, running)
    }

    constructor ()
      ensures playerName == "" && currentSceneId == "intro" && running
      ensures View() == Initial
    {
      playerName := "";
      currentSceneId := "intro";
      running := true;
    }

    /** Ends the session; name and scene stay as they were. */
    method Stop()
      modifies this
      ensures !running
      ensures playerName == old(playerName) && currentSceneId == old(currentSceneId)
      ensures View() == old(View()).Stop()
    {
      running := false;
    }

    /** Moves to another scene; name and running flag stay as they were. */
    method Goto(sceneId: string)
      modifies this
      ensures currentSceneId == sceneId
      ensures playerName == old(playerName) && running == old(running)
      ensures View() == old(View()).Goto(sceneId)
    {
      currentSceneId := sceneId;
    }
  }

  /** Stopping twice is the same as stopping once. */
  lemma StopIdempotent(s: Session)
    ensures s.Stop().Stop() == s.Stop()
    ensures !s.Stop().running
  {
  }

  /** Moving never revives a stopped session. */
  lemma GotoKeepsStopped(s: Session, sceneId: string)
    ensures !s.Stop().Goto(sceneId).running
    ensures s.Stop().Goto(sceneId) == s.Goto(sceneId).Stop()
  {
  }

  /** Only the last of two moves matters. */
  lemma GotoLastWins(s: Session, first: string, second: string)
    ensures s.Goto(first).Goto(second) == s.Goto(second)
    ensures s.Goto(second).currentSceneId == second
  {
  }
}
