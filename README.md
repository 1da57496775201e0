# Portfolio page: splash loader, page gate, contact form, projects and navbar

This project models the behaviour of a single-page portfolio site built with React. The markup and styling are left out; the model keeps the state machines and list operations underneath them:

- **Splash loader** (`loader.dfy`, module `Loader`). A phrase cycler steps an index through four phrases. It fires every 1800 ms and stops at the last phrase, clearing its own interval. A progress driver sets `progress = min(elapsed / 8000 * 100, 100)` on every animation frame and re-arms the frame while the value is below 100. On reaching 100 it arms two timeouts: `exiting` at 400 ms and the completion callback at 1200 ms. The effect cleanups cancel every handle.
- **Page host** (`app.dfy`, module `App`). A `loading` flag starts true and is cleared by the loader's completion callback. It decides whether the page content is hidden and unclickable.
- **Contact form** (`contact.dfy`, module `Contact`). Three fields and the `submitted` and `loading` flags are changed by the change, submit and reset handlers. Social links follow the mailto rule for `target` and `rel`.
- **Projects** (`projects.dfy`, module `Projects`). The constant project list is split into featured and other projects. Each featured card shows a two-digit badge.
- **Navbar** (`navbar.dfy`, module `Navbar`). A strict scroll threshold, the menu toggle, Escape-to-close, and the close actions of the mobile menu.

Browser scheduling is made explicit. Each callback the browser would run is an `Event` that carries its timestamp in milliseconds, as a `real`:

- an interval firing;
- an animation frame;
- either timeout firing;
- a re-run of the progress effect;
- unmounting.

`Loader.Step` gives the new state and the `Call`s the component makes in response. These are `setPhraseIndex`, `setProgress`, `setExiting`, `onComplete`, and the requests and cancellations of handles. The interval firing after the last phrase still calls `setPhraseIndex`; its updater clears the interval and returns the index unchanged, so that firing records `setPhraseIndex` with the current index followed by the cancellation.

A callback is delivered only when its handle is pending:
- an interval firing also needs its next firing time to have come;
- a timeout also needs its delay to have elapsed, and no shorter timeout armed earlier may still be pending (the timer ordering that browsers guarantee).

A callback that is not delivered changes nothing. The class `Loader.SplashLoader` holds the same state as fields. Each method is proved to move those fields exactly as `Step` does. The completion timeout calls `OnComplete` on the host `App` object.

The progress effect depends on `onComplete`, and the page creates a new callback on every render (src/App.jsx:17). So after the first completion re-renders the page, the progress effect runs again with a new start time. Its first frame sets progress from 100 back to about 0 (`Loader.RestartResetsProgress`), so progress is monotone within one run of the effect, not over the component's lifetime. Eight seconds later the re-run arms the timeouts again and calls `onComplete` a second time. That second call changes nothing, because `loading` is already false. Nothing in the code limits `onComplete` to one call per component lifetime. The model therefore proves "at most once" and the exit-before-completion ordering per run of the effect (`Loader.OncePerRun`, `Loader.CompletionAfterExit`).

The code has no flag that tracks whether the component is still mounted: cleanup only cancels handles (src/Component/Loader.jsx:24 and 51-55). The durations are 8000 ms for the progress, 1800 ms for the phrase interval, and 400 and 1200 ms for the two timeouts.

## Model

| member | source | states |
|---|---|---|
| Loader.PhraseUpdate | src/Component/Loader.jsx:19-23 | the phrase updater advances the index by exactly one while it is below the last phrase. It never decreases it and never passes index 3. It clears the interval exactly when it does not advance. |
| Loader.Percent | src/Component/Loader.jsx:36-38 | progress is at most 100, and at least 0 once the frame is not earlier than the start. It is exactly 100 iff at least 8000 ms have elapsed. Below 100 it is proportional to the elapsed time. |
| Loader.RoundHalfUp | src/Component/Loader.jsx:177 | Math.round gives the integer nearest to its argument, with halves rounded up |
| Loader.DisplayedPercent | src/Component/Loader.jsx:177 | the percentage shown under the bar lies in 0..100 when progress does, and reads 100 at full progress |
| Loader.Step | src/Component/Loader.jsx:17-56 | a callback that makes no call (a cancelled, already-fired or not-yet-due handle) leaves the state unchanged |
| Loader.MountEstablishesInv | src/Component/Loader.jsx:12-14 | after mounting, the index is 0, progress is 0, the overlay is rendered, and the invariant holds |
| Loader.StepPreservesInv | src/Component/Loader.jsx:17-56 | every callback preserves the invariant. The invariant says: the index is at most 3 and progress at most 100. While the interval is armed, its next firing is 1800 ms per phrase after mounting; the interval is cleared only at the last phrase or on unmount. Armed timeouts exclude a pending frame and were armed at least 8000 ms after the start. A pending completion timeout means the exit timeout is still pending or `exiting` is already true. An unmounted component owns no handle. |
| Loader.RunPreservesInv | src/Component/Loader.jsx:17-56 | any sequence of callbacks preserves the invariant |
| Loader.RunAppend | src/Component/Loader.jsx:17-56 | running two sequences of callbacks one after the other is the same as running their concatenation |
| Loader.PhraseIndexMonotone | src/Component/Loader.jsx:19-23 | no callback decreases the phrase index or takes it past 3 |
| Loader.PhraseNotEarly | src/Component/Loader.jsx:18-24 | `setPhraseIndex(i)` is called only by an interval firing, and i is the new index. Either the firing advances the index by one, or the index is already the last one and stays. The call comes at least 1800·i ms after mounting. |
| Loader.PhraseAfterTicks | src/Component/Loader.jsx:17-26 | after the interval's first k firings the index is min(k, 3). The interval is still armed iff k ≤ 3. Its next firing is 1800·(min(k,3)+1) ms after mounting. |
| Loader.PercentMonotone | src/Component/Loader.jsx:36-39 | a later frame never computes a smaller percentage |
| Loader.ProgressNonDecreasing | src/Component/Loader.jsx:36-39 | within one run, a frame at a later timestamp leaves progress no smaller |
| Loader.ArmingIsJoint | src/Component/Loader.jsx:41-46 | Only a delivered frame with at least 8000 ms elapsed arms the exit timeout, and it arms the completion timeout at the same time. Such a frame requests no further frame. A frame below 100 requests the next frame. A delivered frame sets progress to the computed percentage. |
| Loader.ExitingNeverReverts | src/Component/Loader.jsx:60 | once `exiting` is true it stays true, so the overlay is never rendered again |
| Loader.ExitNotEarly | src/Component/Loader.jsx:44 | `setExiting` is called only by the exit timeout, at least 8000 + 400 ms after the run's start |
| Loader.CompletionAfterExit | src/Component/Loader.jsx:44-45 | `onComplete` is called only by the completion timeout. It fires at least 8000 + 1200 ms after the run's start, and only when `exiting` is already true. |
| Loader.StepWithinBudget | src/Component/Loader.jsx:41-46 | outside a restart, a callback never makes more completions, exits or timeout requests than the current run still allows, and it uses up what it makes |
| Loader.RunWithinBudget | src/Component/Loader.jsx:41-46 | a restart-free sequence of callbacks never makes more completions, exits or timeout requests than the run allowed at its start |
| Loader.OncePerRun | src/Component/Loader.jsx:41-46 | within one run of the progress effect, the timeouts are each requested at most once. `setExiting` and `onComplete` are each called at most once. |
| Loader.UnmountCancelsAll | src/Component/Loader.jsx:51-55 | unmounting cancels the interval, the frame and both timeouts and leaves no handle pending. Unmounting again does nothing. |
| Loader.DisposedIsInert | src/Component/Loader.jsx:51-55 | a component that has unmounted and owns no handle ignores every callback |
| Loader.SilentAfterUnmount | src/Component/Loader.jsx:51-55 | after unmounting, no sequence of callbacks changes the state or makes any call: no setProgress, setPhraseIndex, setExiting or onComplete |
| Loader.RestartFreeKeepsStart | src/Component/Loader.jsx:30 | the start time changes only when the progress effect re-runs |
| Loader.CompletionTimeInRun | src/Component/Loader.jsx:30-45 | every completion within a run comes at least 9200 ms after that run's start |
| Loader.RestartForgetsOldRun | src/Component/Loader.jsx:51-56 | after the progress effect re-runs at time t, the old run's timeouts are cancelled, and any later completion comes no earlier than t + 9200 ms |
| Loader.RestartResetsProgress | src/Component/Loader.jsx:29-38 | after the progress effect re-runs at time t, the next frame sets progress to the percentage measured from t. A frame at t itself gives 0. |
| Loader.SplashLoader.constructor | src/Component/Loader.jsx:12-14 | mounting yields the initial state, with the interval and the first frame armed |
| Loader.SplashLoader.OnInterval | src/Component/Loader.jsx:18-24 | the fields move exactly as an interval firing moves the model, and the invariant is kept |
| Loader.SplashLoader.OnAnimationFrame | src/Component/Loader.jsx:36-47 | the fields move exactly as a frame moves the model, and the invariant is kept |
| Loader.SplashLoader.OnExitTimeout | src/Component/Loader.jsx:44 | the fields move exactly as the exit timeout moves the model, and the invariant is kept |
| Loader.SplashLoader.OnCompleteTimeout | src/Component/Loader.jsx:45 | the fields move as the completion timeout moves the model. The host's `loading` is cleared exactly when `onComplete` is called. When it is cleared, `exiting` is true and at least 9200 ms have passed since the start. |
| Loader.SplashLoader.RestartProgress | src/Component/Loader.jsx:51-56 | when the effect re-runs, the fields move as the model does: the old frame and timeouts are cancelled, a new frame is requested, and the start is reset |
| Loader.SplashLoader.Unmount | src/Component/Loader.jsx:51-55 | unmounting leaves no handle pending and the state as in the model |
| Loader.SplashLoader.CurrentPhrase | src/Component/Loader.jsx:154 | the phrase on screen is always one of the four phrases |
| App.App.constructor | src/App.jsx:13 | `loading` starts true |
| App.App.OnComplete | src/App.jsx:17 | the completion callback sets `loading` to false. It is the only update, so `loading` never returns to true. |
| App.App.ContentClasses | src/App.jsx:19-25 | the content wrapper has `opacity-0` and `pointer-events-none` exactly while loading, and `opacity-100` exactly when not |
| Contact.With | src/Component/Contact.jsx:55-58 | the field named by the input takes the new value and the other two fields keep theirs |
| Contact.WithLastWriteWins | src/Component/Contact.jsx:55-58 | writing one field twice keeps only the second value |
| Contact.WithCommutes | src/Component/Contact.jsx:55-58 | writes to two different fields commute |
| Contact.LinkAttrsFor | src/Component/Contact.jsx:129-136 | A link has no `target` iff its href starts with `mailto:`, and likewise no `rel`. Otherwise its target is `_blank` and its rel is `noopener noreferrer`. |
| Contact.OnlyEmailOpensInPlace | src/Component/Contact.jsx:13-43 | of the four social links, exactly the email link opens without `target` |
| Contact.ContactForm.constructor | src/Component/Contact.jsx:46-52 | the form starts with three empty fields, and with `submitted` and `loading` false |
| Contact.ContactForm.HandleChange | src/Component/Contact.jsx:55-58 | only the named field changes; `submitted` and `loading` are untouched |
| Contact.ContactForm.HandleSubmit | src/Component/Contact.jsx:60-62 | submitting sets `loading` true and starts one delay, leaving the fields and `submitted` alone |
| Contact.ContactForm.SubmitDelayElapsed | src/Component/Contact.jsx:63-65 | when the delay ends, `loading` is false and `submitted` is true. There is no failure path. |
| Contact.ContactForm.HandleReset | src/Component/Contact.jsx:68-71 | resetting clears `submitted` and empties all three fields, and leaves `loading` alone |
| Projects.FilterByFeatured | src/Component/Project.jsx:115-116 | the result holds exactly the projects whose `featured` flag equals the wanted value, and is no longer than the input |
| Projects.FilterPreservesOrder | src/Component/Project.jsx:115-116 | both lists keep the relative order of the project array |
| Projects.Partition | src/Component/Project.jsx:115-116 | featured and other projects together are exactly the project array, as a multiset. Their lengths add up, and every project is in exactly one of the two. |
| Projects.AllProjectsHaveDistinctIds | src/Component/Project.jsx:4-59 | the six project ids are pairwise distinct |
| Projects.FilterKeepsDistinctIds | src/Component/Project.jsx:218-220 | filtering keeps ids distinct, so the React keys of both grids are unique |
| Projects.FilterUniform | src/Component/Project.jsx:115-116 | a list whose projects all have the same flag is kept whole by one filter and emptied by the other |
| Projects.SplitAfterTwo | src/Component/Project.jsx:115-116 | a list with two featured projects first and none after splits into those two and the rest |
| Projects.SplitOfAllProjects | src/Component/Project.jsx:4-59 | the featured list is the first two projects and the others are the last four |
| Projects.DigitChar | src/Component/Project.jsx:161 | a digit value becomes the decimal digit character with that value |
| Projects.DecimalString | src/Component/Project.jsx:161 | `String(n)` is a non-empty string of decimal digits with no leading zero, one digit long iff n < 10 |
| Projects.DecimalRoundTrip | src/Component/Project.jsx:161 | reading String(n) back gives n |
| Projects.PadStart | src/Component/Project.jsx:161 | `padStart` returns a string of length max(|s|, target) that ends with s, with every added character the fill character |
| Projects.BadgeShape | src/Component/Project.jsx:159-161 | the badge is at least two digits long: "01".."09" for the first nine cards, and the plain number from the tenth. It always reads back as index + 1. |
| Navbar.ToggleLabel | src/Component/Navbar.jsx:91 | the aria-label is "Close menu" iff the menu is open, and "Open menu" iff it is closed |
| Navbar.Navbar.constructor | src/Component/Navbar.jsx:16-17 | the bar starts not scrolled and with the menu closed |
| Navbar.Navbar.HandleScroll | src/Component/Navbar.jsx:20 | `scrolled` is true iff the scroll offset is strictly greater than 50, so 50 itself is not scrolled. The menu state is untouched. |
| Navbar.Navbar.ToggleMenu | src/Component/Navbar.jsx:88 | the menu button flips `menuOpen` |
| Navbar.Navbar.HandleKeyDown | src/Component/Navbar.jsx:27-29 | after a key press the menu is open iff it was open and the key was not Escape. Escape on a closed menu and any other key change nothing. |
| Navbar.Navbar.CloseMenu | src/Component/Navbar.jsx:105-133 | the backdrop (line 105), each mobile link (line 120) and the mobile resume link (line 133) close the menu. On a closed menu they change nothing. |
| Navbar.Navbar.ButtonLabel | src/Component/Navbar.jsx:91-101 | the button reads "Close menu" exactly while the mobile menu is rendered |

The render conditions without a contract of their own are:
- `Loader.OverlayRendered`: the overlay is shown iff not exiting (src/Component/Loader.jsx:60).
- `Contact.ContactForm.ShowsSuccessPanel`: the success panel is shown iff submitted (src/Component/Contact.jsx:169).
- `Contact.ContactForm.SubmitDisabled`: the button is disabled iff loading (src/Component/Contact.jsx:266).
- `Navbar.Navbar.MobileMenuRendered`: the mobile menu is rendered iff open (src/Component/Navbar.jsx:101).

Each is a one-line predicate, used by the lemmas above and by the scenario methods `Contact.SubmitAndReset` and `Navbar.KeyScenario`.

## Left out

- All JSX markup, Tailwind classes and framer-motion animation parameters (durations, delays, opacity, scale, staggering): these are presentation only.
- Real-time scheduling. `requestAnimationFrame`, `setInterval`, `setTimeout` and `performance.now()` are explicit timestamped events. The model says when a callback may be delivered, not when the browser delivers it.
- Liveness. Nothing forces a pending callback to be delivered eventually.
- Loader.Percent: computed on exact reals, not IEEE doubles. Values within rounding error of 100 may compare differently in floating point.
- Loader.SplashLoader.OnAnimationFrame: the timeouts are taken to be armed at the frame's timestamp. In the browser they are armed when the callback runs, slightly later.
- Loader.OncePerRun: stated per run of the progress effect only. After the page re-renders, the effect runs again and can call `onComplete` again, as explained above.
- Loader.SplashLoader.RestartProgress: the re-run is an event the caller supplies. React's decision to re-run the effect when the `onComplete` prop changes is not modelled.
- The phrase interval's drift is not modelled. Each firing is scheduled 1800 ms after the previous scheduled time.
- Contact.ContactForm.SubmitDelayElapsed: the 1500 ms wait is not timed. The promise's resumption is an explicit step, allowed whenever a submission is still waiting.
- Contact form validation is left out: the browser enforces `required` attributes outside the component.
- Contact.ContactForm.HandleChange: the input's `name` attribute is one of the three field names. An arbitrary name would add a new key to the form data; no input of the form produces one.
- The window `addEventListener`/`removeEventListener` plumbing for scroll and keydown. Only the handlers are modelled.
- `react-scroll` smooth scrolling and `react-icons` components.
- Skills, About and HeroSection: static data rendered into markup, with no behaviour.
- Footer: its only rule is the same mailto rule, `Contact.LinkAttrsFor`.
- The copyright year: a wall-clock read.
- Strings are sequences of Unicode scalar values. JavaScript's UTF-16 lengths of the emoji phrases are not modelled.
