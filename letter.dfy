/**
 * The letter section (src/components/Letter.jsx): drives the typewriter
 * over the letter's content (auto-start once on becoming visible, or show
 * everything at once under reduced motion), the start/restart and skip
 * buttons, and the PDF export with its notification.
 *
 * `setTimeout(start, 500)` and `setTimeout(start, 100)` are never cleared;
 * `pendingStarts` counts those still to fire.
 */
module Letter {
  import opened Common
  import Typewriter
  import Notifications

  /** The hook options Letter passes: no loop, default cursor, an `onComplete` that logs. */
  const EngineOptions := Typewriter.Options(false, true, true)

  const UnknownError := "未知错误"
  const ExportFailurePrefix := "PDF导出失败："

  /** `result.success` where `result` is what `generateLetterPDF` returns: a boolean has no such property. */
  function SuccessProperty(result: bool): Option<bool> {
    None
  }

  /** `result.message` on the same boolean: undefined as well. */
  function MessageProperty(result: bool): Option<string> {
    None
  }

  /** The notification for the failure path: `PDF导出失败：<message>`, titled '导出失败', 6000 ms. */
  function FailureNotice(message: Option<string>): (r: Notifications.Request)
    ensures r.kind == Some("error") && r.duration == Some(6000) && r.title == Some("导出失败")
    ensures r.message == Some(ExportFailurePrefix + OrElse(message.GetOr(""), UnknownError))
    ensures message.None? ==> r.message == Some("PDF导出失败：未知错误")
  {
    assert ExportFailurePrefix + UnknownError == "PDF导出失败：未知错误";
    Notifications.ErrorRequest(ExportFailurePrefix + OrElse(message.GetOr(""), UnknownError),
      Notifications.NoFields.(title := Some("导出失败"), duration := Some(6000)))
  }

  /**
   * The notification `handleExportPDF` shows, AS WRITTEN: it tests
   * `result.success` on a boolean, which is always undefined, so it throws
   * `new Error(result.message || '未知错误')` and reports that failure.
   */
  function ExportNotice(result: bool): (r: Notifications.Request)
    ensures SuccessProperty(result) == Some(true) ==> r.kind == Some("success") && r.title == Some("PDF导出成功")
    ensures SuccessProperty(result) != Some(true) ==> r == FailureNotice(MessageProperty(result))
  {
    if SuccessProperty(result) == Some(true) then
      Notifications.SuccessRequest(MessageProperty(result).GetOr(""),
        Notifications.NoFields.(title := Some("PDF导出成功"), duration := Some(4000)))
    else
      FailureNotice(MessageProperty(result))
  }

  /** The export always reports failure, even when the PDF was saved. */
  lemma ExportAlwaysFails(result: bool)
    ensures ExportNotice(result).kind == Some("error")
    ensures ExportNotice(result).message == Some("PDF导出失败：未知错误")
  {
  }

  /**
   * The notification as evidently intended: success exactly when
   * `generateLetterPDF` returned true, the failure message otherwise.
   */
  function IntendedExportNotice(result: bool): (r: Notifications.Request)
    ensures r.kind == Some(if result then "success" else "error")
    ensures r.title == Some(if result then "PDF导出成功" else "导出失败")
    ensures !result ==> r.message == Some("PDF导出失败：未知错误")
  {
    if result then
      Notifications.SuccessRequest("", Notifications.NoFields.(title := Some("PDF导出成功"), duration := Some(4000)))
    else
      FailureNotice(None)
  }

  class LetterView {
    const content: string
    const reduceMotion: bool
    const engine: Typewriter.TypewriterEngine
    var isStarted: bool
    var isExporting: bool
    var pendingStarts: nat

    ghost predicate Valid()
      reads this, engine
    {
      engine.Valid() && engine.text == content && engine.opts == EngineOptions
    }

    constructor (content: string, reduceMotion: bool)
      ensures Valid() && fresh(engine)
      ensures this.content == content && this.reduceMotion == reduceMotion
      ensures engine.State() == Typewriter.Initial(content, EngineOptions)
      ensures !isStarted && !isExporting && pendingStarts == 0
    {
      this.content := content;
      this.reduceMotion := reduceMotion;
      engine := new Typewriter.TypewriterEngine(content, EngineOptions);
      isStarted, isExporting, pendingStarts := false, false, 0;
    }

    /**
     * The two effects after a render, given whether the letter is visible:
     * auto-start schedules `start()` once (it marks `isStarted` first), and
     * under reduced motion `complete()` runs instead.
     */
    method AfterRender(letterVisible: bool)
      requires Valid()
      modifies this, engine
      ensures Valid()
      ensures isStarted == (old(isStarted) || (letterVisible && !reduceMotion))
      ensures pendingStarts == old(pendingStarts) + (if letterVisible && !old(isStarted) && !reduceMotion then 1 else 0)
      ensures engine.State() == if reduceMotion && letterVisible
        then Typewriter.Completed(content, EngineOptions, old(engine.State()))
        else old(engine.State())
      ensures isExporting == old(isExporting)
    {
      if letterVisible && !isStarted && !reduceMotion {
        isStarted := true;
        pendingStarts := pendingStarts + 1;
      }
      if reduceMotion && letterVisible {
        engine.Complete();
      }
    }

    /** One of the scheduled `start()` calls runs. */
    method StartTimerFires()
      requires Valid()
      modifies this, engine
      ensures Valid() && isStarted == old(isStarted) && isExporting == old(isExporting)
      ensures old(pendingStarts) == 0 ==> pendingStarts == 0 && engine.State() == old(engine.State())
      ensures old(pendingStarts) > 0 ==>
        && pendingStarts == old(pendingStarts) - 1
        && engine.State() == Typewriter.Started(content, EngineOptions, old(engine.State()))
    {
      if pendingStarts > 0 {
        pendingStarts := pendingStarts - 1;
        engine.Start();
      }
    }

    /** The start button: the first press starts; later presses reset and start again after 100 ms. */
    method HandleStartTyping()
      requires Valid()
      modifies this, engine
      ensures Valid() && isStarted && isExporting == old(isExporting)
      ensures !old(isStarted) ==>
        && pendingStarts == old(pendingStarts)
        && engine.State() == Typewriter.Started(content, EngineOptions, old(engine.State()))
      ensures old(isStarted) ==>
        && pendingStarts == old(pendingStarts) + 1
        && engine.State() == Typewriter.Cleared(content, EngineOptions, old(engine.State()))
    {
      if !isStarted {
        isStarted := true;
        engine.Start();
      } else {
        engine.Reset();
        pendingStarts := pendingStarts + 1;
      }
    }

    /** The skip button completes the text at once. */
    method HandleSkipTyping()
      requires Valid()
      modifies engine
      ensures Valid() && engine.displayText == content && engine.isComplete && !engine.isTyping
      ensures engine.State() == Typewriter.Completed(content, EngineOptions, old(engine.State()))
    {
      engine.Complete();
    }

    /** The export button is pressed: the export is in progress. */
    method BeginExport()
      modifies this`isExporting
      ensures isExporting
    {
      isExporting := true;
    }

    /**
     * The awaited `generateLetterPDF` settles with `result`; the `finally`
     * clears `isExporting` whichever notification is shown.
     */
    method FinishExport(result: bool) returns (notice: Notifications.Request)
      modifies this`isExporting
      ensures !isExporting
      ensures notice == IntendedExportNotice(result)
    {
      notice := IntendedExportNotice(result);
      isExporting := false;
    }

    /** `displayText || letterData.content`: a prefix of the letter, and never empty for a non-empty letter. */
    function ShownText(): (r: string)
      requires Valid()
      reads this, engine
      ensures IsPrefix(r, content)
      ensures r == "" ==> content == ""
      ensures engine.isComplete ==> r == content
      ensures engine.displayText != "" ==> r == engine.displayText
      ensures engine.displayText == "" ==> r == content
    {
      if engine.displayText == "" then content else engine.displayText
    }

    /** The start button is disabled exactly while typing. */
    predicate StartDisabled()
      requires Valid()
      reads this, engine
      ensures StartDisabled() <==> engine.running
    {
      engine.isTyping
    }

    /** The skip button exists while typing or once started, never under reduced motion. */
    predicate SkipShown()
      reads this, engine
      ensures SkipShown() <==> (engine.isTyping || isStarted) && !reduceMotion
      ensures SkipShown() ==> !reduceMotion
      ensures !reduceMotion && isStarted ==> SkipShown()
    {
      (engine.isTyping || isStarted) && !reduceMotion
    }

    /** The cursor is drawn when the engine shows it and motion is not reduced. */
    predicate CursorShown()
      requires Valid()
      reads this, engine
      ensures engine.isTyping && !reduceMotion ==> CursorShown()
      ensures reduceMotion ==> !CursorShown()
    {
      engine.showCursor && !reduceMotion
    }
  }
}
