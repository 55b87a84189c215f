/**
 * The two reducers drive the same player. Seen through a projection of the
 * book screen's state onto the player controls' state, they agree on
 * `play`, `pause`, `changeSpeed`, the tick, the slider and the duration
 * answer. They differ in two places: moving to another track resets the
 * duration only in `PlayerControlsReducer`, and only its seek buttons cancel
 * the ticker.
 */
module ReducerAgreement {
  import opened AudioInfoState
  import opened Playback
  import PC = PlayerControls
  import BD = BookDetails

  /** The player-controls view of a book-screen state (the text toggle is supplied, the dragged slider dropped). */
  function Project(s: BD.State, showText: bool): (p: PC.State)
    ensures PC.Valid(p) <==> BD.Valid(s)
    ensures PC.Index(p) == s.currentAudioIndex
  {
    PC.State(s.book, s.playerState,
      AudioInfo(s.currentAudioIndex, s.audioInfo.currentTime, s.audioInfo.totalDuration,
                s.audioInfo.currentPlaybackSpeed),
      showText)
  }

  /** The player controls' step is the book screen's step seen through the projection. */
  predicate Agree(pc: PC.Step, bd: BD.Step, showText: bool) {
    pc == PC.Step(Project(bd.state, showText), bd.effects)
  }

  /** `play` starts the same engine command on the same track. */
  lemma AgreeOnPlay(s: BD.State, showText: bool)
    requires BD.Valid(s)
    ensures Agree(PC.Transition(Project(s, showText), PC.Player(PC.PlayerAction.Play)),
                  BD.Transition(s, BD.Player(BD.PlayerAction.Play)), showText)
  {
  }

  lemma AgreeOnPause(s: BD.State, showText: bool)
    ensures Agree(PC.Transition(Project(s, showText), PC.Player(PC.Pause)),
                  BD.Transition(s, BD.Player(BD.Pause)), showText)
  {
  }

  lemma AgreeOnChangeSpeed(s: BD.State, showText: bool)
    ensures Agree(PC.Transition(Project(s, showText), PC.Player(PC.ChangeSpeed)),
                  BD.Transition(s, BD.Player(BD.ChangeSpeed)), showText)
  {
  }

  /** One tick moves the clock the same way and asks for the same follow-up. */
  lemma AgreeOnTick(s: BD.State, showText: bool)
    ensures Agree(PC.Transition(Project(s, showText), PC.UpdateCurrentAudioTime),
                  BD.Transition(s, BD.UpdateCurrentTime), showText)
  {
  }

  lemma AgreeOnSlider(s: BD.State, showText: bool, v: real)
    ensures Agree(PC.Transition(Project(s, showText), PC.UpdateSliderProgress(v)),
                  BD.Transition(s, BD.UpdateProgress(v)), showText)
  {
  }

  lemma AgreeOnDuration(s: BD.State, showText: bool, d: real)
    ensures Agree(PC.Transition(Project(s, showText), PC.GetTotalDuration(d)),
                  BD.Transition(s, BD.AudioInfoAction(BD.GetTotalDuration(d))), showText)
  {
  }

  /**
   * `next`: the same track, time, play state and effects, but the book
   * screen keeps the old track's duration where the player controls reset it
   * to 0.
   */
  lemma NextDiffersOnlyInDuration(s: BD.State, showText: bool)
    requires BD.Valid(s) && !BD.AtLast(s)
    ensures var pc := PC.Transition(Project(s, showText), PC.Player(PC.Next));
      var bd := BD.Transition(s, BD.Player(BD.Next));
      && pc.effects == bd.effects
      && pc.state == Project(bd.state, showText).(audioInfo := Project(bd.state, showText).audioInfo.(totalDuration := 0.0))
      && bd.state.audioInfo.totalDuration == s.audioInfo.totalDuration
  {
  }

  /** `back`: as for `next`, the only difference is the duration reset. */
  lemma BackDiffersOnlyInDuration(s: BD.State, showText: bool)
    requires BD.Valid(s) && !BD.AtFirst(s)
    ensures var pc := PC.Transition(Project(s, showText), PC.Player(PC.Back));
      var bd := BD.Transition(s, BD.Player(BD.Back));
      && pc.effects == bd.effects
      && pc.state == Project(bd.state, showText).(audioInfo := Project(bd.state, showText).audioInfo.(totalDuration := 0.0))
  {
  }

  /**
   * `didFinishPlaying`: the same effects in both. On the last track the states
   * agree too; elsewhere they differ only in the duration, which the book
   * screen keeps and the player controls reset to 0.
   */
  lemma DidFinishDiffersOnlyInDuration(s: BD.State, showText: bool)
    requires BD.Valid(s)
    ensures var pc := PC.Transition(Project(s, showText), PC.Player(PC.DidFinishPlaying));
      var bd := BD.Transition(s, BD.Player(BD.DidFinishPlaying));
      && pc.effects == bd.effects
      && (BD.AtLast(s) ==> pc.state == Project(bd.state, showText))
      && (!BD.AtLast(s) ==>
            && pc.state == Project(bd.state, showText).(audioInfo := Project(bd.state, showText).audioInfo.(totalDuration := 0.0))
            && bd.state.audioInfo.totalDuration == s.audioInfo.totalDuration)
  {
  }

  /**
   * The seek buttons move the time identically, but the player controls also
   * cancel the ticker: their effects are the book screen's with `CancelTimer`
   * inserted after `CancelPlay`.
   */
  lemma SeeksDifferOnlyInTimerCancel(s: BD.State, showText: bool)
    requires s.audioInfo.currentTime != 0.0 && s.audioInfo.currentTime <= s.audioInfo.totalDuration
    ensures var pc := PC.Transition(Project(s, showText), PC.Player(PC.RewindBack));
      var bd := BD.Transition(s, BD.Player(BD.GoBack5));
      && pc.state == Project(bd.state, showText)
      && pc.effects == [CancelPlay, CancelTimer] + bd.effects[1..]
      && CancelTimer !in bd.effects
    ensures var pc := PC.Transition(Project(s, showText), PC.Player(PC.RewindForward));
      var bd := BD.Transition(s, BD.Player(BD.GoForward10));
      && pc.state == Project(bd.state, showText)
      && pc.effects == [CancelPlay, CancelTimer] + bd.effects[1..]
      && CancelTimer !in bd.effects
  {
  }
}
