# Ederstone portal: code sandbox and typewriter, in Dafny

The portal page (`script.js`) holds two pieces of stateful logic. This project
models both and proves properties about them.

**The code sandbox.** The page keeps three source buffers (`editorState`,
keyed `html`, `css` and `js`). It also has a current tab (`currentLang`), an
editor widget, an `isCodingRoomOpen` flag and the browser's `localStorage`.
Each buffer is stored under the key `ederstone-<tab>`. The handlers work as
follows:

- At load, each buffer is seeded from its key, or from a built-in sample when
  the key is missing or empty.
- Every edit is written through to the buffer and to the store. A debounced
  rebuild of the preview follows.
- A tab switch flushes the editor into the buffer being left, then loads the
  target buffer into the editor.
- `runCode` builds the preview document from the three buffers: the CSS in a
  `<style>` block in the head, then the HTML and a `<script>` block in the body.
- Opening and closing the coding room are each guarded against repetition.

**The typewriter.** The welcome banner types one of four messages a character
per tick. When a message is exhausted, it moves on cyclically to the next one.

## Structure

- `buffers.dfy`, module `Buffers` covers the tabs, the store keys, the sample
  defaults and seeding. It also defines `Persisted`: the relation between a
  buffer and the store that every handler keeps.
- `preview.dfy`, module `Preview` holds the preview document as a pure
  function and its layout. It also shows that, with no escaping, two different
  sets of buffers can give the same document.
- `sandbox_spec.dfy`, module `SandboxSpec` holds the whole sandbox state as a
  value (`SandboxState`) with one step function per handler. Each step function
  states its effect and preserves the invariant `Inv`. Lemmas there cover
  sequences of events.
- `sandbox_controller.dfy`, module `SandboxController` has the class
  `Controller`. Its fields are the page's variables and its methods update
  them in place. Each method is proved to match its step function, so the
  lemmas of `SandboxSpec` hold for the handlers.
- `typewriter.dfy`, modules `Typewriter` (pure steps and lemmas) and
  `TypewriterBanner` (the class `Banner`, updated in place).

## Model

| member | source | states |
|---|---|---|
| `Buffers.LangName` | script.js:113 | the three tab names `html`, `css`, `js` have three different lengths |
| `Buffers.StoreKey` | script.js:43-45 | a buffer's store key is never the `codedToday` flag, and the prefixed name of another tab is never equal to it |
| `Buffers.StoreKeysDistinct` | script.js:43-45 | distinct tabs have distinct store keys, and no buffer key is the `codedToday` flag |
| `Buffers.Default` | script.js:43-45 | each built-in sample buffer is non-empty |
| `Buffers.Seed` | script.js:43-45 | a seeded buffer is the stored value when that value is present and non-empty, otherwise the default; a stored empty string also falls back |
| `Buffers.SeedBuffers` | script.js:42-46 | the seeded `editorState` has all three entries, none of them empty, and each agrees with the store in the sense of `Persisted` |
| `Buffers.SeededIsPersisted` | script.js:42-46 | each seeded entry is what `Seed` reads from its own key, so a reload reads back the same buffers |
| `Buffers.WriteThroughPersisted` | script.js:59-61 | writing one text into a buffer and its key keeps every buffer persisted |
| `Buffers.FlagWritePersisted` | script.js:145 | writing the `codedToday` flag keeps every buffer persisted |
| `Buffers.ReloadRestores` | script.js:43-45 | seeding again from the store restores any non-empty persisted buffer exactly |
| `Buffers.ReloadAfterEmptySave` | script.js:43-45 | a buffer saved as empty is seeded back as its non-empty default on reload |
| `Preview.PreviewLayout` | script.js:66-74 | the document is the fixed opening, `<style>`css`</style>`, the head/body boundary, the html, `<script>`js`</script>` and the fixed closing, in that order |
| `Preview.PreviewDocument` | script.js:66-74 | the document keeps every character of the three buffers and the template adds the same number of characters whatever they hold |
| `Preview.PreviewReflectsEachBuffer` | script.js:66-74 | with the other two buffers fixed, different contents of any one buffer give different documents |
| `Preview.ScriptTagNotEscaped` | script.js:69-73 | nothing is escaped: markup ending in `<script>` gives the same document as that tag moved into the script buffer, so the buffers cannot be read back from the document |
| `Preview.StyleTagNotEscaped` | script.js:68-73 | a style buffer that ends with `</style></head><body>` gives the same document as markup that starts with it |
| `SandboxSpec.Load` | script.js:30-46 | the state after load satisfies the invariant; each buffer is seeded from the store; html is current and highlighted; there is no editor yet, the room is closed, the preview is empty and no run is pending |
| `SandboxSpec.SaveCode` | script.js:57-61 | without an editor nothing changes; otherwise the current buffer and its store key both receive the editor text; the other buffers, the tab, the flag and the preview are unchanged; the buffer again matches the editor |
| `SandboxSpec.RunCode` | script.js:66-75 | only the preview changes, and it becomes the document built from the three buffers |
| `SandboxSpec.ClickTab` | script.js:105-119 | clicking the highlighted tab changes nothing; clicking another tab gives the left buffer and its key the editor text, makes the target current and highlighted, and loads the target's buffer into the editor; the other buffers are untouched |
| `SandboxSpec.Edit` | script.js:124-127 | after a change event, the current buffer and its store key hold the new text before the run is scheduled; a run is pending; nothing else changes |
| `SandboxSpec.FireRun` | script.js:49-55 | when the debounced run fires, the preview is rebuilt from the buffers as they are then, and nothing stays pending; everything else is unchanged; without a pending run nothing changes |
| `SandboxSpec.InitEditor` | script.js:81-133 | a missing editor is created showing the current buffer, and the preview is built once; an existing editor is left alone; buffers, store, room flag, current and highlighted tab and pending flag never change |
| `SandboxSpec.OpenRoom` | script.js:137-147 | opening an open room changes nothing; otherwise the flag is set, the store gets `codedToday` = `true`, and the editor exists afterwards: a new one shows the current buffer and the preview is built from the buffers, while an existing one keeps its text and the preview; buffers, current and highlighted tab and pending flag are untouched |
| `SandboxSpec.CloseRoom` | script.js:149-159 | afterwards the room is closed, and nothing else has changed |
| `SandboxSpec.OpenCloseIdempotent` | script.js:137-159 | opening twice is the same as opening once, and closing twice is the same as closing once |
| `SandboxSpec.SwitchAwayAndBack` | script.js:105-119 | edit in one tab, switch away and back: the editor shows the edited text, and the buffer left behind held it throughout |
| `SandboxSpec.SwitchEchoIsHarmless` | script.js:117-118 | if loading a buffer into the editor fires a change event, the save it triggers leaves every buffer as it was |
| `SandboxSpec.EditOverwrites` | script.js:124-127 | a second edit overwrites everything the first one wrote |
| `SandboxSpec.Edits` | script.js:124-127 | any burst of edits keeps the invariant and keeps the editor |
| `SandboxSpec.EditsCoalesce` | script.js:49-55 | a burst of edits leaves the same state as its last edit alone, and the run that follows shows the last edit's text |
| `SandboxSpec.FireRunOnce` | script.js:49-55 | once the debounced run has fired, firing again changes nothing |
| `SandboxSpec.RunDependsOnlyOnBuffers` | script.js:66-75 | two states with the same buffers get the same preview, whatever their current tab or editor |
| `SandboxSpec.ReloadRestoresBuffers` | script.js:42-46 | reloading the page restores every non-empty buffer of the session; an emptied buffer comes back as its default |
| `SandboxSpec.EmptyStoreScenario` | script.js:66-75 | with an empty store, opening the room previews the three samples; typing `console.log(1)` in the script tab stores it, and the debounced run previews it after the sample markup |
| `SandboxController.Controller.constructor` | script.js:30-46 | the controller starts in the state `Load` gives for the initial store |
| `SandboxController.Controller.SaveCode` | script.js:57-64 | the in-place `saveCode` reaches the state `SandboxSpec.SaveCode` describes |
| `SandboxController.Controller.RunCode` | script.js:66-76 | the in-place `runCode` sets `srcdoc` as `SandboxSpec.RunCode` describes |
| `SandboxController.Controller.ClickTab` | script.js:105-120 | the in-place tab-click handler reaches the state `SandboxSpec.ClickTab` describes |
| `SandboxController.Controller.Edit` | script.js:124-127 | the in-place change handler (save, then schedule) reaches the state `SandboxSpec.Edit` describes |
| `SandboxController.Controller.FireRun` | script.js:49-55 | the debounce timer firing reaches the state `SandboxSpec.FireRun` describes |
| `SandboxController.Controller.InitEditor` | script.js:81-133 | editor creation and the initial run reach the state `SandboxSpec.InitEditor` describes |
| `SandboxController.Controller.OpenRoom` | script.js:137-147 | the in-place `openCodingRoom` reaches the state `SandboxSpec.OpenRoom` describes |
| `SandboxController.Controller.CloseRoom` | script.js:149-159 | the in-place `closeCodingRoomFn` reaches the state `SandboxSpec.CloseRoom` describes |
| `SandboxController.Session` | script.js:105-127 | on an empty store: open, edit html, switch to css and back, fire the timer; the editor shows the edit, the store holds it, and the preview shows it with the sample css and js |
| `Typewriter.NextIndex` | script.js:218 | the next message index stays in `[0, 4)`; it is one more, except after the last message, where it wraps to 0 |
| `Typewriter.Type` | script.js:211-215 | while the message has characters left, one more is appended and the counter advances; afterwards the banner still shows a prefix of the message |
| `Typewriter.TypeWriter` | script.js:206-224 | a restart on message `k` shows exactly its first character, with the counter at 1 |
| `Typewriter.Tick` | script.js:211-221 | a tick types the next character of the message; on an exhausted message it moves to the next index and restarts; the banner always shows the first `i` characters of the current message |
| `Typewriter.Ticks` | script.js:211-221 | after any number of ticks the banner still shows a prefix of the current message, and the index is in range |
| `Typewriter.TicksAdd` | script.js:211-221 | `a + b` ticks equal `a` ticks followed by `b` ticks |
| `Typewriter.TicksSpell` | script.js:212-215 | while the message lasts, `n` ticks type exactly its next `n` characters |
| `Typewriter.MessageRound` | script.js:212-220 | starting on message `k`, ticks equal in number to its length type the whole message, then restart on the next one |
| `Typewriter.FullCycle` | script.js:34-39 | after 38 + 34 + 29 + 39 ticks the banner is back at its very first state |
| `TypewriterBanner.Banner.constructor` | script.js:226 | the banner starts as `typeWriter` leaves it on message 0 |
| `TypewriterBanner.Banner.Type` | script.js:211-215 | the in-place `type` matches `Typewriter.Type` |
| `TypewriterBanner.Banner.TypeWriter` | script.js:206-224 | the in-place `typeWriter` matches `Typewriter.TypeWriter` |
| `TypewriterBanner.Banner.Tick` | script.js:211-221 | the in-place timer callback matches `Typewriter.Tick` |

## Left out

- The editor widget is a plain text field. The model leaves out its
  asynchronous loading, `setModelLanguage`, `focus` and its options.
  `InitEditor` runs at once, so an open or close that arrives during the
  loader's wait is not modelled.
- The model does not assume whether `setValue` fires the change event when a
  tab is switched. `SwitchEchoIsHarmless` shows that such an event leaves the
  buffers unchanged. It would also write the target's buffer to its store key
  and call `debouncedRun`, so a run would become pending and the preview would
  be rebuilt when it fires; `ClickTab` itself leaves the pending flag as it is.
- Timers are not modelled: the 600 ms debounce, the 1.5 s clearing of the
  "Saved" status, and the typewriter's 50 ms and 3 s delays. The debounce is
  a single pending flag, which an edit sets and `FireRun` clears. One
  typewriter tick is the next callback that changes the banner. The callback
  that only notices the end of a message and schedules the next one changes
  nothing, so it is folded into the next tick.
- `localStorage` failures are not modelled. If `setItem` throws, the source
  has no handler: the buffer is already updated, but the exception ends the
  handler before the run is scheduled.
- Status texts, their colours, CSS class toggles, and the opacity and
  pointer-events of the floating button are left out. So are the menu toggle
  with its `window.innerWidth` check, the ripple effect, the clock, the random
  visitor counter, the fixed weather text and the load listener. They are
  DOM styling, floating point, time or randomness.
- The backdrop click handler (script.js:165-167) only decides, from the event
  target, whether to call `closeCodingRoomFn`. That call is `CloseRoom`.
- The tab names come from the tabs' `data-lang` attributes in the page's
  markup. That markup is not part of this model. It is taken to hold the
  three tabs `html`, `css` and `js`, with `html` highlighted at first.
- JavaScript strings are UTF-16 code units, while the model uses Dafny
  characters. The messages and keys are ASCII, so this makes no difference
  here.
- The class methods require the invariant (`Stored` or `Inv`). Every state
  the page reaches satisfies it: `Load` establishes it and every step
  preserves it.
