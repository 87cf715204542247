# A love-letter gift page, modelled in Dafny

This project models the core of a React gift page. Under its
presentation, the page is a set of small state machines and data
transformations:

- the typewriter hook and the letter section that drives it, including the PDF export button;
- the background-music hook and the hero section's mute and play controls;
- the intersection-observer hook and the lazily loaded image;
- the lightbox's bounded navigation and swipe classification;
- the PDF generator's page layout with integer arithmetic;
- the toast notification list;
- the accessibility panel's flags, their persistence and the Alt-key shortcuts;
- the placeholder-resource helpers: a byte-exact PCM WAVE header, the resource probe and its fallback, the configuration fill-in, and the download names;
- the resource manager's status table over sixteen files;
- the shared utilities: the WebP URL rewrite, Enter/Space activation, the image observer's callback, debounce and throttle.

Each source file is one module. `common.dfy` holds the shared `Option`, string helpers and a decimal printer.

The style follows the source:
- A pure step function on a datatype states each operation's effect, with lemmas about runs of steps.
- Where the source keeps state (React state, refs, DOM objects), a class holds that state. Its methods are proved to change it exactly as the step function says.
- Timers, browser callbacks and promise settlements are events, delivered as method calls.
- Foreign results are parameters:
  - the outcome of `audio.play()`;
  - a `fetch` outcome;
  - jsPDF's `splitTextToSize`, an uninterpreted function;
  - the `matchMedia` answers;
  - the generated data URLs.

## Model

| member | source | states |
|---|---|---|
| Typewriter.Initial | src/hooks/useTypewriter.js:17-24 | On mount nothing is shown, typing is off, nothing is complete or running, the index is 0, and `showCursor` equals the `cursor` option. |
| Typewriter.Started | src/hooks/useTypewriter.js:35-69 | `start()` does nothing while running or for an empty text. Otherwise it restarts from index 0 with empty text, typing on, complete off and the first tick pending. A loop-restart timer still held in `timeoutRef` is overwritten without being cleared, and is counted as an orphan. |
| Typewriter.CharTyped | src/hooks/useTypewriter.js:44-66 | A tick before the end reveals `text[..index+1]` and reschedules itself. A tick at the end stops typing, marks complete, shows the whole text, calls `onComplete` once (when given) and, with `loop`, schedules the restart. |
| Typewriter.Paused | src/hooks/useTypewriter.js:72-76 | `pause()` cancels the pending tick and stops typing and running. The revealed text, the index and `isComplete` stay. |
| Typewriter.Cleared | src/hooks/useTypewriter.js:79-86 | `reset()` returns to empty text, not typing, not complete, index 0 and not running, with no timer. |
| Typewriter.Completed | src/hooks/useTypewriter.js:89-99 | `complete()` shows the full text, complete and not typing, cancels the timer, and calls `onComplete` on every call. |
| Typewriter.Fired | src/hooks/useTypewriter.js:48-64 | The timer in `timeoutRef` fires. With no timer nothing changes. A loop restart (`reset()` then `start()`) of a non-empty text types again from index 0 with empty text, and leaves no orphan, because `reset()` cleared the timer first. The reachable-state invariant is kept. |
| Typewriter.OrphanFired | src/hooks/useTypewriter.js:60-63 | An overwritten loop-restart timer that fires still resets and restarts typing. With no orphans it does nothing. |
| Typewriter.Blinked | src/hooks/useTypewriter.js:102-119 | The 500 ms interval flips the cursor only when the option is on, typing has stopped and the text is complete. In every other state nothing changes. |
| Typewriter.Ticks | src/hooks/useTypewriter.js:44-66 | Any number of timer firings keeps the reachable-state invariant, including "`displayText` is the prefix of length `index`". |
| Typewriter.TicksRevealPrefix | src/hooks/useTypewriter.js:44-48 | After `start()`, the k-th tick (k at most the length) shows exactly the first k characters and is still typing. |
| Typewriter.RunsToCompletion | src/hooks/useTypewriter.js:49-57 | Left alone, the engine finishes on tick length+1 with the whole text shown, typing stopped, and `onComplete` called exactly once. |
| Typewriter.StartAfterPauseRestarts | src/hooks/useTypewriter.js:38-76 | `start()` after `pause()` does not resume: it goes back to index 0 with empty text. |
| Typewriter.CursorRule | src/hooks/useTypewriter.js:102-112 | With the `cursor` option, the cursor is shown while typing and whenever the text is not complete. Without the option it is never shown, even after a blink. |
| Typewriter.TypewriterEngine.constructor | src/hooks/useTypewriter.js:17-24 | A new engine is in the initial state for its text and options. |
| Typewriter.TypewriterEngine.Start | src/hooks/useTypewriter.js:35-69 | The hook's `start` changes the refs and state exactly as `Started`. |
| Typewriter.TypewriterEngine.TypeNextChar | src/hooks/useTypewriter.js:44-66 | `typeNextChar` changes the state exactly as `CharTyped`. |
| Typewriter.TypewriterEngine.Pause | src/hooks/useTypewriter.js:72-76 | `pause` changes the state exactly as `Paused`. |
| Typewriter.TypewriterEngine.Reset | src/hooks/useTypewriter.js:79-86 | `reset` changes the state exactly as `Cleared`. |
| Typewriter.TypewriterEngine.Complete | src/hooks/useTypewriter.js:89-99 | `complete` changes the state exactly as `Completed`. |
| Typewriter.TypewriterEngine.Tick | src/hooks/useTypewriter.js:48-64 | The held timer firing changes the state exactly as `Fired`. |
| Typewriter.TypewriterEngine.OrphanTick | src/hooks/useTypewriter.js:60-63 | An orphaned restart timer firing changes the state exactly as `OrphanFired`. |
| Typewriter.TypewriterEngine.BlinkTick | src/hooks/useTypewriter.js:109-111 | The cursor interval changes the state exactly as `Blinked`. |
| Typewriter.TypewriterEngine.SyncCursor | src/hooks/useTypewriter.js:102-107 | The cursor effect sets `showCursor` while typing or not complete. |
| Letter.FailureNotice | src/components/Letter.jsx:81-88 | The failure toast is an error titled '导出失败', shown for 6000 ms, reading 'PDF导出失败：' followed by the message, or by '未知错误' when there is no message. |
| Letter.ExportAlwaysFails | src/components/Letter.jsx:73-88 | As written, `generateLetterPDF` returns a boolean and `result.success` is always undefined. So export shows the error 'PDF导出失败：未知错误' whatever the outcome. |
| Letter.IntendedExportNotice | src/components/Letter.jsx:75-88 | As intended: a successful save gives the success toast 'PDF导出成功'. A failed one gives the error toast with '未知错误'. |
| Letter.ExportNotice | src/components/Letter.jsx:75-88 | As written: the success toast only when the result has `success === true`; otherwise the error toast with the result's `message`, or '未知错误'. |
| Letter.LetterView.constructor | src/components/Letter.jsx:14-34 | The section starts not started and not exporting, with a fresh typewriter in its initial state for the letter. |
| Letter.LetterView.AfterRender | src/components/Letter.jsx:37-51 | Auto-start marks `isStarted` and schedules one `start()` only when visible, not started and not reduced-motion. Under reduced motion, visibility calls `complete()` instead. |
| Letter.LetterView.StartTimerFires | src/components/Letter.jsx:40-61 | A scheduled `start()` runs on the engine. With none pending, nothing changes. |
| Letter.LetterView.HandleStartTyping | src/components/Letter.jsx:53-63 | The first press starts typing at once. Later presses reset and schedule a start 100 ms later. |
| Letter.LetterView.HandleSkipTyping | src/components/Letter.jsx:65-67 | Skip is `complete()` of the typewriter: the engine becomes `Typewriter.Completed` of its old state, so the whole letter is shown, complete and not typing, and pending timers are cancelled. |
| Letter.LetterView.BeginExport | src/components/Letter.jsx:70 | Export sets `isExporting`. |
| Letter.LetterView.FinishExport | src/components/Letter.jsx:73-91 | Export clears `isExporting` on every path, and shows the corrected notice `IntendedExportNotice` (see the first finding and "Left out"). |
| Letter.LetterView.ShownText | src/components/Letter.jsx:178 | The letter shows the typewriter's text whenever it is non-empty, and otherwise the whole letter (before typing starts, and during the start delay). So it is always a prefix of the letter, never empty for a non-empty letter, and the full letter once complete. |
| Letter.LetterView.StartDisabled | src/components/Letter.jsx:127 | The start button is disabled exactly while the typewriter is running. |
| Letter.LetterView.SkipShown | src/components/Letter.jsx:137 | The skip button shows exactly when the letter is typing or has been started, and motion is not reduced. |
| Letter.LetterView.CursorShown | src/components/Letter.jsx:179 | The cursor shows while typing without reduced motion, and never under reduced motion. |
| Audio.Clamp | src/hooks/useAudio.js:81 | The volume is clamped into [0, 1]: values inside are kept, values below become 0 and values above become 1. |
| Audio.NewElement | src/hooks/useAudio.js:15-41 | A new element has the given source, loop on, volume 0.3, preload 'metadata', is paused, and has its listeners attached. |
| Audio.TornDown | src/hooks/useAudio.js:43-49 | Cleanup removes the listeners, pauses, clears `src`, and keeps loop, volume and preload. |
| Audio.CleanedUp | src/hooks/useAudio.js:43-49 | Cleanup tears down the current element, which stays in `audioRef`, and leaves the flags unchanged. Without a live element it changes nothing. |
| Audio.SourceSet | src/hooks/useAudio.js:12-50 | A new `src` releases the old element. A non-empty `src` creates the new element; an empty one creates nothing. The flags are not reset. |
| Audio.CanPlay | src/hooks/useAudio.js:24-27 | `canplaythrough` sets `isLoaded` and clears the error, but only while the listeners are attached. |
| Audio.Failed | src/hooks/useAudio.js:29-33 | While the listeners are attached, the error event sets '音频加载失败' and clears `isLoaded` and `isPlaying`. Otherwise it changes nothing. |
| Audio.Ended | src/hooks/useAudio.js:35-37 | While the listeners are attached, `ended` clears `isPlaying`. Otherwise it changes nothing. |
| Audio.Played | src/hooks/useAudio.js:52-62 | `play` does nothing without an element or before loading. A resolved play sets `isPlaying`. A rejected one sets '播放失败，可能需要用户交互' and clears `isPlaying`. |
| Audio.PausedPlayer | src/hooks/useAudio.js:64-69 | With an element, `pause` pauses it and clears `isPlaying`. Without one it does nothing. |
| Audio.Toggled | src/hooks/useAudio.js:71-77 | `toggle` pauses when playing and plays otherwise. The invariant is kept. |
| Audio.VolumeSet | src/hooks/useAudio.js:79-83 | The element's volume becomes the clamped value. The call is dropped without an element. |
| Audio.PauseIdempotent | src/hooks/useAudio.js:64-69 | Pausing twice is pausing once. |
| Audio.ToggleCases | src/hooks/useAudio.js:71-77 | Toggling while playing ends paused. Toggling while not playing is exactly `play`, and starts playback when loaded and the play resolves. |
| Audio.VolumeLastWins | src/hooks/useAudio.js:79-83 | Two volume settings equal the second one alone. |
| Audio.SourceChangeReleasesOld | src/hooks/useAudio.js:43-49 | After a source change, the previous element is torn down and recorded as released. |
| Audio.ReleasedElementIsInert | src/hooks/useAudio.js:44-46 | Once the listeners are removed, `canplaythrough`, `error` and `ended` change nothing. |
| Audio.AudioPlayer.constructor | src/hooks/useAudio.js:7-21 | Mounting runs the effect once for the initial `src`. |
| Audio.AudioPlayer.CleanUp | src/hooks/useAudio.js:43-49 | The effect's cleanup changes the state as `CleanedUp`. |
| Audio.AudioPlayer.SetSource | src/hooks/useAudio.js:12-50 | A `src` change runs the cleanup and then the effect, as `SourceSet`. |
| Audio.AudioPlayer.OnCanPlayThrough | src/hooks/useAudio.js:24-27 | The handler changes the state as `CanPlay`. |
| Audio.AudioPlayer.OnError | src/hooks/useAudio.js:29-33 | The handler changes the state as `Failed`. |
| Audio.AudioPlayer.OnEnded | src/hooks/useAudio.js:35-37 | The handler changes the state as `Ended`. |
| Audio.AudioPlayer.Play | src/hooks/useAudio.js:52-62 | `play` with a given promise outcome changes the state as `Played`. |
| Audio.AudioPlayer.Pause | src/hooks/useAudio.js:64-69 | `pause` changes the state as `PausedPlayer`. |
| Audio.AudioPlayer.Toggle | src/hooks/useAudio.js:71-77 | `toggle` changes the state as `Toggled`. |
| Audio.AudioPlayer.SetVolume | src/hooks/useAudio.js:79-83 | `setVolume` changes the state as `VolumeSet`. |
| Hero.MuteToggled | src/components/Hero.jsx:29-37 | The mute toggle flips `isMuted`. Muting sets the volume to 0; unmuting always sets 0.3. |
| Hero.MuteVolumes | src/components/Hero.jsx:29-37 | With an element, muting gives volume 0 and unmuting gives volume 0.3. |
| Hero.DoubleToggle | src/components/Hero.jsx:30-31 | Muting then unmuting ends at 0.3 whatever the volume was before: the previous volume is not restored. |
| Hero.Mounted | src/components/Hero.jsx:11-20 | On mount: not muted, content hidden, the 500 ms content timer pending, image not loaded. |
| Hero.ControlsFollowLoading | src/components/Hero.jsx:84-99 | `ControlsDisabled`: the audio controls are disabled on mount, enabled once the music can play, disabled again after a load error, and muting does not change them. |
| Hero.HeroView.constructor | src/components/Hero.jsx:10-20 | Mounting creates the audio hook with `musicSrc` and the hero's initial flags. |
| Hero.HeroView.ContentTimerFires | src/components/Hero.jsx:18-20 | The timer shows the content. |
| Hero.HeroView.Unmount | src/components/Hero.jsx:22 | Unmount clears the content timer and runs the audio hook's cleanup. |
| Hero.HeroView.HandleImageLoad | src/components/Hero.jsx:25-27 | The background image's load sets `imageLoaded`. |
| Hero.HeroView.HandleMuteToggle | src/components/Hero.jsx:29-37 | The mute button changes the state as `MuteToggled`. |
| Hero.HeroView.HandlePlayToggle | src/components/Hero.jsx:84 | The play button is the audio hook's `toggle`. |
| Visibility.Effective | src/hooks/useIntersectionObserver.js:19-23 | The observer options are threshold 0.1 and root margin '50px 0px', each overridden by the caller's field when given. |
| Visibility.OnEntry | src/hooks/useIntersectionObserver.js:13-17 | `isVisible` becomes the entry's `isIntersecting`. `hasBeenVisible` becomes true on an intersecting entry and otherwise keeps its value. |
| Visibility.AfterEntriesMeaning | src/hooks/useIntersectionObserver.js:7-17 | After any run of entries, `isVisible` is the latest entry (false before any), and `hasBeenVisible` holds exactly when some entry intersected. |
| Visibility.HasBeenVisibleLatches | src/hooks/useIntersectionObserver.js:15-17 | Once set, `hasBeenVisible` is never cleared. |
| Visibility.IntersectionHook.constructor | src/hooks/useIntersectionObserver.js:7-9 | Both flags start false and nothing is observed. |
| Visibility.IntersectionHook.Subscribe | src/hooks/useIntersectionObserver.js:11-29 | The effect observes the current element, if any, with the merged options. |
| Visibility.IntersectionHook.Cleanup | src/hooks/useIntersectionObserver.js:26-35 | Cleanup unobserves the element the effect captured. |
| Visibility.IntersectionHook.OnIntersection | src/hooks/useIntersectionObserver.js:13-17 | The callback changes the flags as `OnEntry`. |
| Visibility.IntersectionHook.Returned | src/hooks/useIntersectionObserver.js:38 | The hook returns the element ref, `isVisible` and `hasBeenVisible`, in that order. |
| LazyImage.Step | src/components/LazyImage.jsx:26-45 | The effect starts one preload exactly when visible, with a non-empty `src`, and neither loaded nor failed, and it changes neither flag. A load event sets `loaded` and an error event sets `error`, each leaving the other flag as it was, and no flag is ever cleared. |
| LazyImage.FlagsOnlySet | src/components/LazyImage.jsx:17-45 | Over any run of events `loaded` and `error` only go from false to true, and the preload count never drops. |
| LazyImage.NoPreloadAfterSettled | src/components/LazyImage.jsx:27 | Once the image has loaded or failed, no further preload is ever started: there is no retry. |
| LazyImage.ViewRules | src/components/LazyImage.jsx:27-77 | The placeholder and the error panel never show together. A preload is due exactly when the placeholder shows and the image is rendered. |
| LazyImage.LazyImageView.constructor | src/components/LazyImage.jsx:17-23 | The image starts neither loaded nor failed, with no preload, and its visibility hook starts with both flags false. |
| LazyImage.LazyImageView.RunEffect | src/components/LazyImage.jsx:26-37 | The preload effect, with the hook's current visibility, changes the state as `Step`. |
| LazyImage.LazyImageView.HandleLoad | src/components/LazyImage.jsx:29-41 | A load event sets `loaded`. |
| LazyImage.LazyImageView.HandleError | src/components/LazyImage.jsx:32-45 | An error event sets `error`. |
| Lightbox.PreviousIndex | src/components/Lightbox.jsx:17-22 | Previous navigates to i-1 exactly when i > 0. |
| Lightbox.NextIndex | src/components/Lightbox.jsx:24-29 | Next navigates to i+1 exactly when i < count-1. |
| Lightbox.KeyAction | src/components/Lightbox.jsx:33-47 | Escape closes, ArrowLeft goes back, ArrowRight goes forward, and every other key does nothing (both directions of each). |
| Lightbox.SwipeAction | src/components/Lightbox.jsx:63-75 | With both coordinates truthy (present and non-zero), a distance above 50 goes next and one below -50 goes previous. Otherwise, or with a missing coordinate, nothing happens. A swipe never closes. |
| Lightbox.NavigationStaysInRange | src/components/Lightbox.jsx:17-29 | From an index in range, any sequence of previous, next and thumbnail requests keeps the index in range. |
| Lightbox.PreviousThenNext | src/components/Lightbox.jsx:17-29 | Previous then next returns to the same index. |
| Lightbox.ButtonsMatchGuards | src/components/Lightbox.jsx:110-121 | The previous and next buttons are shown exactly when their handlers would navigate. |
| Lightbox.Viewer.constructor | src/components/Lightbox.jsx:10-12 | The viewer opens on an index in range, with no touch coordinates, and loading. |
| Lightbox.Viewer.HandlePrevious | src/components/Lightbox.jsx:17-22 | Previous moves back within range and shows the spinner only when it moves. |
| Lightbox.Viewer.HandleNext | src/components/Lightbox.jsx:24-29 | Next moves forward within range and shows the spinner only when it moves. |
| Lightbox.Viewer.KeyDown | src/components/Lightbox.jsx:33-47 | Escape requests one close and leaves the index and loading flag alone. The arrows move the index as `Navigate` does, and set the loading flag exactly when the index moves. Any other key changes nothing; the touch coordinates never change. |
| Lightbox.Viewer.TouchStart | src/components/Lightbox.jsx:54-57 | A touch start forgets the previous end and records the start. |
| Lightbox.Viewer.TouchMove | src/components/Lightbox.jsx:59-61 | A touch move records the end. |
| Lightbox.Viewer.TouchEnd | src/components/Lightbox.jsx:63-75 | A touch end navigates as `SwipeAction` classifies it, setting the loading flag exactly when the index moves. A short swipe changes neither; the touch points and close requests are kept. |
| Lightbox.Viewer.ThumbnailClick | src/components/Lightbox.jsx:165-168 | A thumbnail click goes to its index and shows the spinner. |
| Lightbox.Viewer.HandleImageLoad | src/components/Lightbox.jsx:77-79 | The image's load clears the spinner. |
| Lightbox.Viewer.CounterText | src/components/Lightbox.jsx:105 | The counter is the one-based index, ' / ', and the image count. |
| Lightbox.CounterReadsBack | src/components/Lightbox.jsx:105 | The counter splits back at ' / ' into two digit strings that parse to the one-based index and the count. |
| Pdf.PageBreak | src/utils/pdfGenerator.js:144 | `addPage` adds one page and logs it. |
| Pdf.SplitLines | src/utils/pdfGenerator.js:129 | `content.split('\n')` gives at least one part, and no part contains a newline. |
| Pdf.JoinSplitLines | src/utils/pdfGenerator.js:129 | Joining the parts with newlines gives the content back. |
| Pdf.PlaceAllWrappedBelowTop | src/utils/pdfGenerator.js:141-165 | Placing the wrapped lines of one source line never moves the pen above y = 30. |
| Pdf.PlaceAllWrappedInBand | src/utils/pdfGenerator.js:143-164 | Every text drawn for the wrapped lines is at x = 20 with 30 ≤ y ≤ 257: a page is added whenever y passes 257. |
| Pdf.PlaceAllWrappedTexts | src/utils/pdfGenerator.js:141-165 | The wrapped lines are drawn in order, and nothing else is drawn. |
| Pdf.PlaceLinesBelowTop | src/utils/pdfGenerator.js:133-167 | Over the whole letter the pen never moves above y = 30. |
| Pdf.PlaceLinesInBand | src/utils/pdfGenerator.js:133-167 | Over the whole letter every drawn line is at x = 20 with 30 ≤ y ≤ 257. |
| Pdf.PlaceLineStep | src/utils/pdfGenerator.js:133-164 | A whitespace-only line advances y by 8 and draws nothing. A wrapped line past y = 257 first adds a page and restarts at y = 30; then it draws at x = 20 and advances y by 8. |
| Pdf.PlaceLinesTexts | src/utils/pdfGenerator.js:133-167 | The texts drawn are the wrapped non-blank lines, in source order. |
| Pdf.LetterPageStartsPage | src/utils/pdfGenerator.js:106-130 | `addLetterPage` always begins with a new page, and the text starts at y = 30. |
| Pdf.LetterPageInBand | src/utils/pdfGenerator.js:106-170 | Every text the letter page draws lies in the band 30 ≤ y ≤ 257 at the left margin. |
| Pdf.LetterPageTexts | src/utils/pdfGenerator.js:129-167 | The letter page draws exactly the wrapped non-blank lines of the content, in order. |
| Pdf.PageBreakInBand | src/utils/pdfGenerator.js:143-158 | A page break draws nothing, so the band property is kept. |
| Pdf.PlaceLinesPages | src/utils/pdfGenerator.js:133-167 | Laying out lines never removes pages. |
| Pdf.PlaceAllWrappedPages | src/utils/pdfGenerator.js:141-165 | Laying out wrapped lines never removes pages. |
| Pdf.PageLabels | src/utils/pdfGenerator.js:193 | The label of page i is "i / N", for each page. |
| Pdf.FooterLabelsEveryPage | src/utils/pdfGenerator.js:180-196 | The footer draws exactly the labels "1 / N" .. "N / N" as its texts, in page order. |
| Pdf.PageFooterOnItsPage | src/utils/pdfGenerator.js:180-196 | One footer iteration selects page i, whatever page was current, and draws the label "i / N" there. |
| Pdf.FooterLabelsOnTheirPages | src/utils/pdfGenerator.js:180-196 | Reading the log with the current page tracked, the footer draws "i / N" on page i for every page 1..k, in order, and ends on page k. |
| Pdf.FootedLabelsEveryPage | src/utils/pdfGenerator.js:175-199 | After `addFooter` the page count is unchanged, and every page i of the document carries "i / N" after what was drawn before. |
| Pdf.CoverOps | src/utils/pdfGenerator.js:60-98 | The cover draws, in order: the title's wrapped lines, the subtitle's wrapped lines only for a non-empty subtitle, the heart, and the date only when it is non-empty. It draws nothing else. |
| Pdf.CoverStaysOnPage | src/utils/pdfGenerator.js:47-101 | The cover adds no page and does not change the current page. |
| Pdf.DrawCoverLines | src/utils/pdfGenerator.js:64-69 | A `forEach` over wrapped lines draws each line, in order, on the current page, keeping the page count. |
| Pdf.PdfGenerator.constructor | src/utils/pdfGenerator.js:8-9 | A new generator has no document. |
| Pdf.PdfGenerator.EnsureDocument | src/utils/pdfGenerator.js:48 | A missing document is created; an existing one is kept. `addLetterPage` makes the same test at line 107. |
| Pdf.PdfGenerator.AddCoverPage | src/utils/pdfGenerator.js:47-101 | The loops over the wrapped title and subtitle lines, then the heart and the date, append exactly `CoverOps` to the current page. A one-page document is created first if there is none. |
| Pdf.PdfGenerator.AddLetterPage | src/utils/pdfGenerator.js:106-170 | The loop over lines and wrapped lines produces exactly `LetterPage`. |
| Pdf.PdfGenerator.AddFooter | src/utils/pdfGenerator.js:175-199 | Without a document nothing happens. Otherwise the loop appends the footer of every page, so by `FootedLabelsEveryPage` page i gets its label "i / N". |
| Pdf.PdfGenerator.Save | src/utils/pdfGenerator.js:204-216 | Without a document it throws 'PDF文档未创建'. Otherwise it returns true after saving, or false if the save throws. |
| Pdf.PdfGenerator.GetDataURL | src/utils/pdfGenerator.js:221-227 | Without a document it throws; otherwise it returns the data URI. |
| Pdf.GenerateLetterPDF | src/utils/pdfGenerator.js:233-251 | The result is a boolean: true exactly when composing and saving both succeed, with the defaults '亲笔信', '来自心底的话语', '' and 'love-letter.pdf'. |
| Notifications.Filled | src/components/NotificationSystem.jsx:13-19 | A new notification takes the generated id, type 'info' and duration 5000, each overridden by the caller's field when given. |
| Notifications.WithoutId | src/components/NotificationSystem.jsx:34-36 | Removing by id keeps exactly the notifications with another id. |
| Notifications.WithoutIdAppend | src/components/NotificationSystem.jsx:35 | The filter distributes over concatenation, so order is kept. |
| Notifications.WithoutAbsentId | src/components/NotificationSystem.jsx:35 | Removing an id that is absent changes nothing. |
| Notifications.RemoveIdempotent | src/components/NotificationSystem.jsx:34-36 | Removing twice is removing once. |
| Notifications.AddThenRemove | src/components/NotificationSystem.jsx:12-36 | Adding with a fresh id and then removing that id restores the list. |
| Notifications.ShowRequest | src/components/NotificationSystem.jsx:160-168 | `showNotification` passes the message and the type, each overridden by the options. |
| Notifications.SuccessRequest | src/components/NotificationSystem.jsx:170-172 | `showSuccess` uses type 'success'. |
| Notifications.ErrorRequest | src/components/NotificationSystem.jsx:174-176 | `showError` uses type 'error' and a default duration of 7000, both overridable. |
| Notifications.WarningRequest | src/components/NotificationSystem.jsx:178-180 | `showWarning` uses type 'warning'. |
| Notifications.InfoRequest | src/components/NotificationSystem.jsx:182-184 | `showInfo` uses type 'info'. |
| Notifications.NotificationCenter.constructor | src/components/NotificationSystem.jsx:9 | The list starts empty. |
| Notifications.NotificationCenter.Add | src/components/NotificationSystem.jsx:12-31 | Add appends the filled notification and returns its generated id. It schedules a removal only for a positive duration. |
| Notifications.NotificationCenter.Remove | src/components/NotificationSystem.jsx:34-36 | Remove filters the list by id. |
| Notifications.NotificationCenter.ClearAll | src/components/NotificationSystem.jsx:39-41 | Clear all empties the list. |
| Notifications.NotificationCenter.RemovalFires | src/components/NotificationSystem.jsx:25-27 | A scheduled removal runs `removeNotification` with its id. |
| Notifications.NotificationCenter.RendersNothing | src/components/NotificationSystem.jsx:82 | The container renders nothing exactly when the list is empty. |
| Notifications.NotificationCenter.ShowsClearAll | src/components/NotificationSystem.jsx:140 | The clear-all button shows exactly when more than one notification is listed, so never when the container renders nothing. |
| Notifications.ShowNotification | src/components/NotificationSystem.jsx:160-168 | Without a registered center nothing happens and nothing is returned. Otherwise the filled request is added under a fresh id, and its removal timer is scheduled exactly when its duration is positive. |
| Accessibility.Encode | src/components/AccessibilityControls.jsx:38-58 | `toString()` of a flag is 'true' or 'false'. |
| Accessibility.StoredFlagOfEncode | src/components/AccessibilityControls.jsx:26-38 | A flag written to the store is read back as the same flag. |
| Accessibility.Startup | src/components/AccessibilityControls.jsx:16-33 | At startup each flag is the stored value compared with 'true'. An absent key gives false, and the panel is closed. |
| Accessibility.MediaQueriesIgnored | src/components/AccessibilityControls.jsx:18-32 | The media-query answers never matter, because the stored comparison is never null. A user who prefers reduced motion but has no stored key gets false. |
| Accessibility.Persisted | src/components/AccessibilityControls.jsx:36-59 | The persistence effects store each flag under its key and leave every other key alone. |
| Accessibility.StartupRoundTrip | src/components/AccessibilityControls.jsx:16-59 | Startup followed by write-back and a reload restores the same flags. |
| Accessibility.ShortcutTarget | src/components/AccessibilityControls.jsx:63-87 | Only Alt with lower-case 'a', 'm', 'c' or 's' is a shortcut; upper-case letters are not. |
| Accessibility.Negated | src/components/AccessibilityControls.jsx:67-85 | A shortcut negates exactly its own flag. |
| Accessibility.Shortcut | src/components/AccessibilityControls.jsx:63-87 | `preventDefault` is called exactly for a shortcut. Any other key leaves every flag unchanged. |
| Accessibility.ShortcutInvolution | src/components/AccessibilityControls.jsx:63-87 | Pressing the same shortcut twice restores every flag. |
| Accessibility.MediaElement.constructor | src/components/AccessibilityControls.jsx:50 | A media element with its `muted` property. |
| Accessibility.Panel.constructor | src/components/AccessibilityControls.jsx:10-13 | All four flags start false. |
| Accessibility.Panel.ResolveStartup | src/components/AccessibilityControls.jsx:16-33 | The startup effect sets the flags as `Startup`. |
| Accessibility.Panel.ApplyReduceMotion | src/components/AccessibilityControls.jsx:36-39 | The root's 'reduce-motion' class follows the flag, and the flag is stored. |
| Accessibility.Panel.ApplyHighContrast | src/components/AccessibilityControls.jsx:42-45 | The root's 'high-contrast' class follows the flag, and the flag is stored. |
| Accessibility.Panel.ApplyMuteAll | src/components/AccessibilityControls.jsx:48-59 | Every audio and video element gets `muted` equal to the flag; then the flag is stored. |
| Accessibility.Panel.KeyDown | src/components/AccessibilityControls.jsx:63-87 | The keydown listener changes the flags and prevents the default as `Shortcut`. |
| Accessibility.Panel.ToggleOpen | src/components/AccessibilityControls.jsx:98 | The settings button toggles the panel. |
| Accessibility.Panel.Close | src/components/AccessibilityControls.jsx:114 | The close button closes the panel; the overlay at line 226 does the same. |
| Accessibility.Panel.ToggleFlag | src/components/AccessibilityControls.jsx:134-190 | Each switch negates its flag. |
| Placeholder.LittleEndianRoundTrip | src/utils/placeholderGenerator.js:65-76 | A little-endian field of width w reads back as its value modulo 256^w. |
| Placeholder.LittleEndian | src/utils/placeholderGenerator.js:65-76 | `setUint16`/`setUint32` with little-endian order store exactly 2 or 4 bytes. |
| Placeholder.Ascii | src/utils/placeholderGenerator.js:58-62 | `writeString` stores one byte per character: its code modulo 256. |
| Placeholder.WavHeaderLayout | src/utils/placeholderGenerator.js:64-76 | The header is 44 bytes: 'RIFF', the RIFF size, 'WAVE', 'fmt ', then each format field at its fixed offset, then 'data' and the data size. |
| Placeholder.WavHeaderRoundTrip | src/utils/placeholderGenerator.js:50-76 | A reader of the header gets PCM, 2 channels, 44100 Hz, byte rate 176400, block align 4, 16 bits, and the data size numSamples·4. Both sizes wrap modulo 2^32. |
| Placeholder.SetBytes | src/utils/placeholderGenerator.js:58-62 | Writing bytes at an offset changes exactly those positions. |
| Placeholder.WriteWavHeader | src/utils/placeholderGenerator.js:64-76 | The header writes, in the source's order, produce the header and leave the rest of the buffer unchanged. |
| Placeholder.GenerateSilentAudio | src/utils/placeholderGenerator.js:49-81 | With `duration` defaulting to 30 seconds, the buffer has 44 + numSamples·4 bytes with numSamples = 44100·duration. It holds the header, and every sample byte after it is zero. |
| Placeholder.CheckResourceExists | src/utils/placeholderGenerator.js:88-95 | A resource exists exactly when the HEAD request answers ok. A network failure gives false. |
| Placeholder.ResourceWithFallback | src/utils/placeholderGenerator.js:98-105 | An empty primary gives the fallback without a probe. Otherwise the result is the primary exactly when it exists. |
| Placeholder.FallbackNeverEmpty | src/utils/placeholderGenerator.js:98-105 | With a non-empty fallback the resolved URL is never empty. |
| Placeholder.FilledItem | src/utils/placeholderGenerator.js:139-147 | Each empty image of a timeline entry takes the entry's fallback; non-empty ones are kept. |
| Placeholder.ApplyExampleResources | src/utils/placeholderGenerator.js:132-153 | Empty hero and music take the generated ones. Timeline entry i takes key i mod 8, and gallery entry i takes image i mod 6. Lengths and other fields are kept. |
| Placeholder.ApplyExampleResourcesFills | src/utils/placeholderGenerator.js:132-153 | With non-empty generated resources nothing stays empty, and applying the mapping again changes nothing. |
| Placeholder.ApplyKeepsGivenValues | src/utils/placeholderGenerator.js:137-150 | Every non-empty value in the configuration is kept. |
| Placeholder.GalleryColour | src/utils/placeholderGenerator.js:122-125 | Every gallery placeholder colour is one of the three. |
| Placeholder.GalleryColourCycles | src/utils/placeholderGenerator.js:124 | The colours repeat with period 3, starting with the first at every multiple of 3. |
| Placeholder.DownloadNames | src/utils/placeholderGenerator.js:170-182 | The names are `timeline-<key>.png` for the 8 keys in order, then `gallery-photo<i>.png` for i = 1 to the gallery size, then the hero and music names. |
| Placeholder.Downloads | src/utils/placeholderGenerator.js:170-182 | Each name is paired with its own resource: timeline key k with its image, gallery photo i with image i, then the hero image and the music. |
| Placeholder.DownloadNamesDistinct | src/utils/placeholderGenerator.js:172-181 | No two downloads share a file name. |
| Resources.RequiredResourcesShape | src/components/ResourceManager.jsx:17-34 | Sixteen resources with distinct paths; only the music is audio. |
| Resources.CollectStatus | src/components/ResourceManager.jsx:37-52 | The check records one boolean per path, each the probe's outcome, with false on failure. The table's keys are exactly the paths. |
| Resources.ExistingCount | src/components/ResourceManager.jsx:81 | The count of existing resources never exceeds the number of recorded paths. |
| Resources.CountBounded | src/components/ResourceManager.jsx:81-82 | The existing count never exceeds the 16 required resources. |
| Resources.AllReadyAfterCheck | src/components/ResourceManager.jsx:81-83 | After a check, "all ready" shows exactly when every resource exists, and the missing count is never negative. |
| Resources.Mark | src/components/ResourceManager.jsx:179 | A resource is marked as present exactly when it was recorded as existing; unchecked paths show the cross. |
| Resources.SuccessNotice | src/components/ResourceManager.jsx:62-65 | Success shows a 'success' toast titled '资源生成成功' for 5000 ms. |
| Resources.GenerationFailureUnreported | src/components/ResourceManager.jsx:66-68 | As written, any failure of the resource pack ends in a ReferenceError, because `showError` is not among the imports at line 4. No notification is shown. |
| Resources.GenerationAsWritten | src/components/ResourceManager.jsx:55-72 | As written: success shows the success toast; any failure rejects with the ReferenceError for `showError`, and no toast is shown. |
| Resources.IntendedGeneration | src/components/ResourceManager.jsx:58-68 | As intended, every outcome notifies. A failure shows the error toast '资源生成失败: ' followed by the message, for 7000 ms. |
| Resources.Panel.constructor | src/components/ResourceManager.jsx:11-14 | The panel starts closed, with an empty table, not checking and not generating. |
| Resources.Panel.ToggleOpen | src/components/ResourceManager.jsx:75-90 | The button toggles the panel, and opening it starts a check. |
| Resources.Panel.Close | src/components/ResourceManager.jsx:108 | The close button closes the panel; the overlay at line 207 does the same. |
| Resources.Panel.BeginCheck | src/components/ResourceManager.jsx:38 | A check sets `isChecking`. |
| Resources.Panel.CompleteCheck | src/components/ResourceManager.jsx:39-51 | The table is replaced by the probes' outcomes, one per required path, and `isChecking` is cleared. |
| Resources.Panel.GenerateExampleResources | src/components/ResourceManager.jsx:55-72 | `isGenerating` is cleared on every path, and the corrected notification `IntendedGeneration` is shown (see the second finding and "Left out"). |
| Utils.GetWebPUrl | src/utils/index.js:104-109 | A lower-case '.jpg' or '.jpeg' suffix becomes '.webp' and everything before it is kept. Other URLs are unchanged, and no result carries a JPEG suffix. |
| Utils.GetWebPUrlIdempotent | src/utils/index.js:104-109 | Rewriting twice is rewriting once. |
| Utils.UpperCaseSuffixKept | src/utils/index.js:105 | '.JPG' is left unchanged: the guard is case-sensitive. |
| Utils.JpgAndJpegAgree | src/utils/index.js:106 | 'x.jpg' and 'x.jpeg' both become 'x.webp'. |
| Utils.HandleKeyboardNavigation | src/utils/index.js:124-129 | Enter and space each prevent the default and call the callback exactly once. Other keys do nothing. |
| Utils.CreateImageObserver | src/utils/index.js:25-40 | There is no observer without browser support. Otherwise the observer has threshold 0.1 and root margin '50px 0px'. |
| Utils.IntersectingTargetsAppend | src/utils/index.js:31-35 | The callbacks follow the entries' order: a split batch gives the callbacks of its halves, in order. |
| Utils.IntersectingTargetsMembers | src/utils/index.js:32-34 | Exactly the intersecting entries call back. |
| Utils.ObserverCallback | src/utils/index.js:30-36 | The forEach loop calls back with the intersecting targets in order. |
| Utils.DebounceCall | src/utils/index.js:47-54 | A call cancels the pending timer, sets one `wait` later with its arguments, and never runs `func` itself. |
| Utils.DebounceAdvance | src/utils/index.js:48-51 | A due timer runs `func` with its arguments once; nothing else happens. |
| Utils.DebounceBurstKeepsLast | src/utils/index.js:52-53 | After a burst of calls only the last call's timer is pending, and `func` has not run. |
| Utils.DebounceRunsOnceWithLast | src/utils/index.js:45-55 | A burst followed by `wait` of quiet runs `func` exactly once with the last arguments; earlier, nothing runs. |
| Utils.Debouncer.constructor | src/utils/index.js:45-46 | `debounce` starts with no pending timer and no call made. |
| Utils.Debouncer.Call | src/utils/index.js:47-54 | The returned wrapper changes the state as `DebounceCall`. |
| Utils.Debouncer.Advance | src/utils/index.js:48-51 | The timer changes the state as `DebounceAdvance`. |
| Utils.ThrottleCall | src/utils/index.js:62-69 | Outside the window a call is forwarded and opens the window for `limit`. Inside it the call is dropped. |
| Utils.ThrottleAdvance | src/utils/index.js:68 | The window closes when due, and nothing dropped is replayed. |
| Utils.ThrottleForwardsFirstOnly | src/utils/index.js:60-71 | In a burst within one window, only the first call is forwarded (none if the window was already open). Dropped calls are not queued. |
| Utils.Throttler.constructor | src/utils/index.js:60-61 | `throttle` starts with the window closed and nothing forwarded. |
| Utils.Throttler.Call | src/utils/index.js:62-69 | The returned wrapper changes the state as `ThrottleCall`. |
| Utils.Throttler.Advance | src/utils/index.js:68 | The timer changes the state as `ThrottleAdvance`. |

## Left out

- The JSX markup, CSS classes, icons and animations are not modelled. Only the rules that decide what is shown are.
- Timers and intervals are events; their durations are constants that the model never waits on. React's render cycle, batching and stale closures are not modelled: each handler sees the latest state.
- NaN, infinities and floating point are not modelled. The volume is a `real`, and the completion rate is compared as integers, which agrees with the source for 16 resources.
- Audio.Played: the `await` between `play()` and its settlement is collapsed into one step. A `pause` that lands in between is not modelled.
- Audio.CleanedUp: the element is a value, so aliasing between `audioRef` and the effect's captured `audio` is not modelled. `audioRef` keeps the released element, as the source does.
- Visibility.IntersectionHook.OnIntersection: the callback reads only the first entry of a batch, as the source does; the other entries are dropped.
- Visibility.IntersectionHook.Subscribe: re-running the effect when `options` changes identity on every render is not modelled; one subscription per effect run is.
- Pdf.PdfGenerator.AddCoverPage: the cover's texts are logged in order, but not their positions, font sizes or colours, since the centring uses jsPDF's text widths in floating point. The background and border rectangles are not modelled.
- Letter.LetterView.FinishExport: shows the corrected `IntendedExportNotice`. As written the source shows `ExportNotice(result)`, which is always the error toast because `generateLetterPDF` returns a boolean (first finding, `Letter.ExportAlwaysFails`).
- Resources.Panel.GenerateExampleResources: shows the corrected `IntendedGeneration`. As written the source behaves as `GenerationAsWritten`: a failure rejects with a ReferenceError and no toast (second finding).
- Typewriter.CharTyped: the text is a sequence of Unicode scalar values, while `text.slice` and `text.length` count UTF-16 code units. The model agrees with the source only for text without characters outside the Basic Multilingual Plane; such a character takes two ticks in the source, and one of them shows a lone surrogate. Typewriter.TicksRevealPrefix and Typewriter.RunsToCompletion count ticks in the same units.
- Typewriter: the `autoStart` effect and the unmount cleanup of `useTypewriter` (src/hooks/useTypewriter.js:122-130) are not modelled. The letter never passes `autoStart`, and the unmount `clearTimeouts` only stops timers of a component that is gone.
- Pdf: jsPDF's fonts, colours, rectangles and output encoding are not modelled. `splitTextToSize` is an uninterpreted function, one per font size: title, subtitle and body.
- Pdf.IsJsWhitespace: the whitespace set used by `trim()` is listed as written. Unicode categories beyond it are not modelled.
- Placeholder.GenerateSilentAudio: the Blob and the object URL are not modelled, and neither is the `ArrayBuffer` size limit.
- Placeholder: `generatePlaceholderImage` draws on a canvas with `Math.random`, so the generated images are parameters. Its text and colour arguments are not modelled, apart from the gallery colour cycle.
- Lightbox: an empty image list is not modelled. The viewer requires an index in range, as the parent only opens it on an existing image.
- Accessibility.Panel.ApplyMuteAll: `querySelectorAll` is the given sequence of elements, and the same element listed twice is not considered.
- Resources.Panel.CompleteCheck: the sixteen awaited probes are one step. A second check that overlaps the first is not modelled.
- Utils: `prefersReducedMotion`, `formatDate`, `generateId`, `isMobile`, `scrollToElement` and `supportsWebP` call browser APIs and the clock, and are not part of this model.
- The Gallery, Timeline and EasterEgg components, `src/data/config.js`, and the application shell are not part of this model.

## Findings

| source | as written | input that shows it | evidently intended | confidence | as-written member | corrected member |
|---|---|---|---|---|---|---|
| src/components/Letter.jsx:73-88 | `handleExportPDF` tests `result.success`, but `generateLetterPDF` returns a boolean, so the test is always false and the error path runs | any export, including one where the PDF is saved and `generateLetterPDF` returns true | report success when the PDF was saved and failure otherwise | high, not executed | Letter.ExportAlwaysFails | Letter.IntendedExportNotice |
| src/components/ResourceManager.jsx:68 | the catch block calls `showError`, which is not among the imports at line 4, so a failure throws a ReferenceError and no notification appears | `generateResourcePack().download()` throwing, e.g. a failing `createDownloadLink` | show the error toast '资源生成失败: ' followed by the error's message | high, not executed | Resources.GenerationFailureUnreported | Resources.IntendedGeneration |
