# Portfolio site: a verified model of its logic

The site is a Next.js/React portfolio. Most of it is markup and animation
configuration. The logic it owns, modelled here, is:

- **The contact form's status machine** (`useContactForm` and `ContactForm`).
  - Three text fields and a status of idle, loading, success or error.
  - The button's disabled flag, colour scheme, scan line and label, all derived from the status.
- **Two typing effects**, each revealing a string one character per timer tick.
  - `TypewriterText`.
  - The footer's `TerminalSocialLink`.
- **Selection over small lists.**
  - The header's scroll handler picks the active section and builds each section's URL path.
  - The projects section filters by category.
  - The theme and language switchers look up the current entry, falling back to the first one, and keep an open/closed menu flag.
- **Deterministic layout and pointer state.**
  - Particle placement in the two background components, computed from the index with modular arithmetic.
  - The tilt card's hover flag and pointer offset (`use3DCard`, repeated in `ProjectCard`).

There is one Dafny module per source file, plus three shared modules:

| module | contents |
|---|---|
| `Common` | `Option`, the `Array.find` search, distinct table keys |
| `Keyframes` | orb keyframe lists shared by both backgrounds |
| `Card3D` | the 3D card hook, reused by the projects section |

Where the source changes state step by step, the model is imperative:

| class | state fields | step methods |
|---|---|---|
| `ContactFormState.ContactForm` | `formState`, `status` | one per callback or submission phase |
| `Typewriter.TypewriterText` | `started`, `currentIndex`, `displayedText` | the start timer, one typing tick |
| `FooterTerminal.TerminalSocialLink` | `isHovered`, `typed`, counter `i`, whether the interval is running | enter, leave, one interval tick |
| `Header.HeaderState` | `isScrolled`, `isMobileMenuOpen`, `activeSection` | scroll, menu toggle, mobile item choice |
| `Card3D.TiltCard` | `isHovered`, `x`, `y` | enter, move, leave |
| `Projects.ProjectsSection` | `activeCategory` | filter button click |
| `ThemeSwitcher.ThemeSwitcherState` | `mounted`, `isOpen` | mount, toggle, backdrop click, option choice |
| `LanguageSwitcher.LanguageSwitcherState` | `isOpen` | toggle, backdrop click, locale change |

Each timer or interval callback is one explicit step method. The asynchronous
`handleSubmit` is split at its `await` and its `setTimeout` into four
transitions: begin, succeed, fail, and the timer that resets the status.
`ContactFormState.Step` is a reference semantics of those transitions, and
every method of `ContactForm` is proved to follow it.

Pure source code is modelled as functions with lemmas: the view mappings, the
filter, the lookups, the path template and the particle arithmetic.

Everything the components read from outside is a parameter:

- the DOM: an element's top is a `map<string, real>` from element id, and a missing key is a missing element;
- the card's bounding box;
- `window.scrollY`;
- the theme stored by next-themes;
- the router's locale and pathname.

Requests the components make are return values:

- the pushed URL path;
- the theme passed to `setTheme`;
- the `router.replace` navigation.

Most `.ts`/`.tsx` names appear here in PascalCase (`handleChange` is
`HandleChange`). The status literals are a datatype, so "the status is always one
of the four values" holds by construction. `ContactFormState.ParseStatus`
checks that no other string is a status.

## Model

| member | source | states |
|---|---|---|
| Common.FindFirst | src/components/ui/ThemeSwitcher.tsx:31 | the index found is the first element that matches; there is none exactly when no element matches |
| Common.FindOr | src/components/ui/LanguageSwitcher.tsx:23 | `find(...) \|\| table[0]`: the first matching entry when one exists (every other match comes after it), otherwise the fallback |
| Common.AtMostOneWithKey | src/components/layout/Header.tsx:11-17 | in a table with distinct keys, two entries with the same key are the same entry |
| ContactFormState.StatusName | src/hooks/useContactForm.ts:5 | every status is one of the four literals of the union |
| ContactFormState.ParseStatus | src/hooks/useContactForm.ts:5 | a string is parsed to a status only if it is that status's literal; the strings it rejects are no status's literal |
| ContactFormState.ParseStatusName | src/hooks/useContactForm.ts:5 | every status's literal parses back to that status |
| ContactFormState.FieldKeyInjective | src/hooks/useContactForm.ts:7-11 | distinct fields have distinct keys |
| ContactFormState.WithField | src/hooks/useContactForm.ts:36 | the spread update sets the named field to the value and leaves the other two fields as they were |
| ContactFormState.Step | src/hooks/useContactForm.ts:33-61 | one event of the hook: status-only events keep the fields, a change keeps the status, reset and success clear the fields, reset and the timer give idle |
| ContactFormState.Run | src/hooks/useContactForm.ts:33-61 | events applied in order: no events change nothing, a run ending in the timer is idle, a run ending in reset is the initial state |
| ContactFormState.ChangeOnlyThatField | src/hooks/useContactForm.ts:33-39 | a change event sets exactly that field and keeps the other fields and the status |
| ContactFormState.ResetIsInitial | src/hooks/useContactForm.ts:23-27 | from any state, reset gives three empty fields and status idle |
| ContactFormState.SuccessfulSubmission | src/hooks/useContactForm.ts:46-57 | a submission is loading first, then success with all fields empty, then idle after the timer |
| ContactFormState.FailedSubmission | src/hooks/useContactForm.ts:58-60 | a failed submission gives error with the fields kept, then idle with the fields kept |
| ContactFormState.TimerAlwaysIdle | src/hooks/useContactForm.ts:57 | the delayed reset gives idle from any status and keeps the fields |
| ContactFormState.StatusEventsKeepFields | src/hooks/useContactForm.ts:46-61 | any run of begin, fail and timer events leaves the three fields unchanged (induction on the run) |
| ContactFormState.StaleTimerEndsLaterLoading | src/hooks/useContactForm.ts:57-60 | after begin and fail the status is error, a second begin makes it loading, and the first submission's timer then turns it to idle |
| ContactFormState.ContactForm.constructor | src/hooks/useContactForm.ts:30-31 | the hook starts with the initial fields and status idle |
| ContactFormState.ContactForm.HandleChange | src/hooks/useContactForm.ts:33-39 | the new state is the change step of the old one: only that field changes |
| ContactFormState.ContactForm.ResetForm | src/hooks/useContactForm.ts:41-44 | the new state is the initial one |
| ContactFormState.ContactForm.BeginSubmit | src/hooks/useContactForm.ts:46-48 | the status becomes loading and the fields are kept |
| ContactFormState.ContactForm.SubmitSucceeded | src/hooks/useContactForm.ts:52-54 | the status becomes success and the fields are cleared |
| ContactFormState.ContactForm.SubmitFailed | src/hooks/useContactForm.ts:58-59 | the status becomes error and the fields are kept |
| ContactFormState.ContactForm.StatusTimerFired | src/hooks/useContactForm.ts:57 | the status becomes idle and the fields are kept |
| ContactFormView.IsDisabled | src/components/sections/contact/ContactForm.tsx:40 | the button is disabled if and only if the status is loading or success |
| ContactFormView.ButtonStyleOf | src/components/sections/contact/ContactForm.tsx:119-131 | the style is success iff success, error iff error, and the default iff idle or loading |
| ContactFormView.ShowsScanLine | src/components/sections/contact/ContactForm.tsx:145 | the scan line is drawn iff the status is idle, so never on a disabled button and always with the default style |
| ContactFormView.LabelOf | src/components/sections/contact/ContactForm.tsx:159-193 | loading shows "sending", success "success", error "error", and idle "send" |
| ContactFormView.LabelOfIsBijective | src/components/sections/contact/ContactForm.tsx:159-193 | distinct statuses show distinct labels, and every label is shown for some status |
| ContactFormView.InputsTargetOwnField | src/components/sections/contact/ContactForm.tsx:57-78 | each input's handler edits the field named like its id; every field has an input and no two inputs share a field |
| Typewriter.TypewriterText.constructor | src/components/ui/TypewriterText.tsx:12-19 | starts with nothing shown, counter 0 and not started; the delay defaults to 0 and the typing speed to 50 |
| Typewriter.TypewriterText.StartTimerFired | src/components/ui/TypewriterText.tsx:21-24 | sets started and changes neither the counter nor the text; the shown text stays the prefix up to the counter |
| Typewriter.TypewriterText.Tick | src/components/ui/TypewriterText.tsx:26-35 | when started and characters remain, appends the next character and increments the counter; otherwise nothing changes; the shown text stays the prefix up to the counter |
| Typewriter.TypewriterText.ShowsCursor | src/components/ui/TypewriterText.tsx:40 | the cursor is rendered iff characters remain; without it the whole text is shown |
| FooterTerminal.Slice | src/components/layout/Footer.tsx:75 | `slice(0, n)` is a prefix of length min(n, length) |
| FooterTerminal.TickBudget | src/components/layout/Footer.tsx:77 | the interval runs exactly one tick per character, and exactly one tick for an empty command |
| FooterTerminal.TerminalSocialLink.constructor | src/components/layout/Footer.tsx:68-69 | not hovered, nothing typed, no interval |
| FooterTerminal.TerminalSocialLink.MouseEnter | src/components/layout/Footer.tsx:71-74 | entering starts a fresh interval at counter 0; a repeated enter changes nothing |
| FooterTerminal.TerminalSocialLink.MouseLeave | src/components/layout/Footer.tsx:79-83 | leaving stops the interval and clears the typed text |
| FooterTerminal.TerminalSocialLink.IntervalTick | src/components/layout/Footer.tsx:74-78 | a running interval types one more character and stops once the counter reaches the command's length; each tick while hovered counts one more, and after k of them the typed text is the command's first min(k, length) characters |
| FooterTerminal.TerminalSocialLink.Line | src/components/layout/Footer.tsx:136 | the line is "$ " and the typed prefix of the command while hovered, "$ ..." otherwise |
| Header.IsScrolled | src/components/layout/Header.tsx:212 | scrolled iff `scrollY > 20` |
| Header.Qualifies | src/components/layout/Header.tsx:217-220 | a section qualifies only if its element exists, so a missing element never qualifies |
| Header.LastQualifying | src/components/layout/Header.tsx:215-225 | the last section, in navigation order, whose element exists and whose top is at most 150, or none |
| Header.ScanActiveSection | src/components/layout/Header.tsx:215-225 | the reversed loop with `break` makes the last qualifying section active, skips missing elements, and keeps the current section when none qualifies |
| Header.NavPath | src/components/layout/Header.tsx:60 | the path is "/" for home and "/" followed by the section id otherwise |
| Header.SectionOfPath | src/components/layout/Header.tsx:60 | the inverse of `NavPath`: every path "/" or "/id" (other than "/home") is the `NavPath` of the section read from it |
| Header.NavPathRoundTrip | src/components/layout/Header.tsx:11-17 | every navigation section is read back from its own path, so no two sections push the same path |
| Header.IsActive | src/components/layout/Header.tsx:282 | a navigation link is active iff the active section is its section id |
| Header.AtMostOneActiveLink | src/components/layout/Header.tsx:282 | keys equal section ids and are distinct, so at most one link is active |
| Header.HeaderState.constructor | src/components/layout/Header.tsx:206-208 | not scrolled, menu closed, active section "home" |
| Header.HeaderState.HandleScroll | src/components/layout/Header.tsx:211-226 | sets the scrolled flag from the threshold and the active section from the scan; the menu flag is kept |
| Header.HeaderState.ToggleMobileMenu | src/components/layout/Header.tsx:303 | flips the mobile menu flag and nothing else |
| Header.HeaderState.ChooseMobileItem | src/components/layout/Header.tsx:362-376 | closes the menu; the section's path is pushed iff its element exists |
| Header.DesktopClickPath | src/components/layout/Header.tsx:51-62 | a path is pushed iff the section's element exists, and it is that section's `NavPath` |
| Card3D.Resolve | src/hooks/use3DCard.ts:13-20 | an omitted rotation range is 8 and an omitted spring is {150, 20, mass 0.5}; a given spring replaces the default as a whole |
| Card3D.Offset | src/hooks/use3DCard.ts:34-38 | the card's centre plus the offset is the pointer position |
| Card3D.OffsetAtCentre | src/hooks/use3DCard.ts:35-38 | a pointer at the centre gives (0, 0), and moving the pointer by (dx, dy) from the centre gives (dx, dy) |
| Card3D.DegenerateRectStillOffsets | src/hooks/use3DCard.ts:34-38 | a zero-area box is not special-cased |
| Card3D.RotateXPairs | src/hooks/use3DCard.ts:26 | inputs (-100, 100); y = -100 maps to +range and y = 100 to -range |
| Card3D.RotateYPairs | src/hooks/use3DCard.ts:27 | inputs (-100, 100); x = -100 maps to -range and x = 100 to +range |
| Card3D.RotationPairsMirror | src/hooks/use3DCard.ts:26-27 | the two mappings share their inputs and have mirrored outputs |
| Card3D.TiltCard.constructor | src/hooks/use3DCard.ts:19-24 | the options are resolved with their defaults, the card is not hovered, and x = y = 0 |
| Card3D.TiltCard.MouseMove | src/hooks/use3DCard.ts:32-41 | x and y become the pointer's offset from the centre; the hover flag is kept |
| Card3D.TiltCard.MouseEnter | src/hooks/use3DCard.ts:43-45 | sets hovered and does not touch x or y |
| Card3D.TiltCard.MouseLeave | src/hooks/use3DCard.ts:47-51 | x = y = 0 and not hovered |
| Card3D.TiltCard.Rotations | src/hooks/use3DCard.ts:26-27 | the card's endpoint pairs carry its resolved rotation range |
| Projects.Keeps | src/components/sections/ProjectsSection.tsx:330 | "all" keeps every project; any other category keeps exactly the projects of that category |
| Projects.Filter | src/components/sections/ProjectsSection.tsx:329-331 | `filter` never lengthens the list; its other properties are the lemmas below |
| Projects.FilterAll | src/components/sections/ProjectsSection.tsx:329-331 | with "all" the filter returns the whole list in order |
| Projects.FilterKeeps | src/components/sections/ProjectsSection.tsx:330 | every project the filter returns has the active category, unless the category is "all" |
| Projects.FilterCounts | src/components/sections/ProjectsSection.tsx:329-331 | a project that passes the test appears as often as in the list, and one that fails does not appear |
| Projects.FilterIsSubsequence | src/components/sections/ProjectsSection.tsx:329-331 | the result is an order-preserving subsequence of the list |
| Projects.FilterOfProjectList | src/components/sections/ProjectsSection.tsx:22-98 | on the section's table, "web" shows projects 1, 2, 4, 6; "mobile" shows 3; "design" shows 5 |
| Projects.ButtonIsActive | src/components/sections/ProjectsSection.tsx:425 | a button is highlighted exactly when its category equals the active one (`activeCategory === category`), so the highlighted button's category keeps the same projects as the filter applied |
| Projects.ExactlyOneActiveButton | src/components/sections/ProjectsSection.tsx:100 | the categories are distinct, so at most one button is styled active |
| Projects.SomeButtonActive | src/components/sections/ProjectsSection.tsx:425 | some button is styled active iff the active category is one of the categories |
| Projects.ProjectsSection.constructor | src/components/sections/ProjectsSection.tsx:327 | the category starts as "all", showing every project |
| Projects.ProjectsSection.SelectCategory | src/components/sections/ProjectsSection.tsx:422 | a click makes that button's category active |
| Projects.ProjectsSection.Shown | src/components/sections/ProjectsSection.tsx:329-331 | the cards shown are the table filtered by the active category: all pass the test, every passing project is shown as often as in the table, and the table's order is kept |
| Projects.ProjectCardRotations | src/components/sections/ProjectsSection.tsx:112-116 | a project card tilts by plus or minus 8 degrees, and its spring sets no mass |
| AnimatedBackground.ParticleAt | src/components/ui/AnimatedBackground.tsx:60-66 | particle i has id i, left and top in [10, 89], duration in {3, 4, 5} and delay i * 0.3 |
| AnimatedBackground.ParticlePeriods | src/components/ui/AnimatedBackground.tsx:62-64 | placement repeats every 80 indices and duration every 3 |
| AnimatedBackground.ReduceMod80 | src/components/ui/AnimatedBackground.tsx:62-63 | a particle's left and top values are those of the particle whose index is its own modulo 80 |
| AnimatedBackground.DistinctPlacement | src/components/ui/AnimatedBackground.tsx:62-63 | two particles whose indices differ modulo 80 share neither a left nor a top value, so no two of any 80 consecutive particles do |
| AnimatedBackground.Particles | src/components/ui/AnimatedBackground.tsx:59-60 | `Array.from` makes particleCount particles, or none for a negative count |
| AnimatedBackground.ParticlesAreIndexed | src/components/ui/AnimatedBackground.tsx:59-67 | entry i is the particle of index i, so ids run 0 to count-1 in order, all within bounds |
| AnimatedBackground.ParticlesGrowByPrefix | src/components/ui/AnimatedBackground.tsx:59-67 | a particle depends only on its index: a larger count extends the list without moving existing particles |
| AnimatedBackground.Resolve | src/components/ui/AnimatedBackground.tsx:51-55 | each omitted prop takes its default (the default orbs, no particles, 15, grid shown) and a given one is kept |
| AnimatedBackground.RenderedParticles | src/components/ui/AnimatedBackground.tsx:89-90 | particles are drawn only when `showParticles` holds |
| AnimatedBackground.DefaultBackground | src/components/ui/AnimatedBackground.tsx:53-55 | with no props, no particle is drawn and the grid is; switching particles on draws 15 |
| AnimatedBackground.DefaultOrbsSeamless | src/components/ui/AnimatedBackground.tsx:27-49 | every default orb's keyframe lists end where they begin |
| HeroBackground.RandomX | src/components/sections/hero/HeroBackground.tsx:11 | the column is in [0, 99], and is 37 * index while that is below 100 |
| HeroBackground.RandomDuration | src/components/sections/hero/HeroBackground.tsx:12 | the duration is in [15, 24], and is 15 + index for the first ten indices |
| HeroBackground.Delay | src/components/sections/hero/HeroBackground.tsx:26 | the delay is non-negative and half the index |
| HeroBackground.HeroParticlePeriods | src/components/sections/hero/HeroBackground.tsx:11-12 | columns repeat every 100 indices and durations every 10 |
| HeroBackground.ParticleOf | src/components/sections/hero/HeroBackground.tsx:10-33 | particle parameters stay in bounds |
| HeroBackground.Particles | src/components/sections/hero/HeroBackground.tsx:104-106 | `PARTICLE_COUNT` particles are created |
| HeroBackground.ParticlesLayout | src/components/sections/hero/HeroBackground.tsx:77 | exactly 20 particles with indices 0..19 in order, in bounds, each starting later than the one before |
| HeroBackground.DistinctColumns | src/components/sections/hero/HeroBackground.tsx:11 | 37 is invertible modulo 100, so no two of the first 100 indices share a column |
| HeroBackground.OrbsLoopSeamlessly | src/components/sections/hero/HeroBackground.tsx:56-75 | each orb's scale, x and y keyframes begin and end with the same value, at its rest size and position |
| ThemeSwitcher.IsTheme | src/components/ui/ThemeSwitcher.tsx:31 | an entry matches iff the theme is present and equals its value; an absent theme matches no entry |
| ThemeSwitcher.CurrentTheme | src/components/ui/ThemeSwitcher.tsx:31 | the entry whose value is the theme, or the light entry when none matches (an absent theme matches none) |
| ThemeSwitcher.ThemesTable | src/components/ui/ThemeSwitcher.tsx:25-29 | light/sun, dark/moon and system/monitor, with distinct values |
| ThemeSwitcher.CurrentThemeCases | src/components/ui/ThemeSwitcher.tsx:25-31 | dark shows the moon, system the monitor, and everything else shows the light entry |
| ThemeSwitcher.Rows | src/components/ui/ThemeSwitcher.tsx:71-73 | one row per theme, in order, marked active iff its value equals the theme |
| ThemeSwitcher.Render | src/components/ui/ThemeSwitcher.tsx:19-51 | the placeholder is rendered iff not mounted; once mounted, the trigger shows the current theme's icon and the menu is rendered iff open |
| ThemeSwitcher.AtMostOneActiveRow | src/components/ui/ThemeSwitcher.tsx:73 | at most one row is marked active |
| ThemeSwitcher.ActiveRowIsCurrent | src/components/ui/ThemeSwitcher.tsx:31-73 | a marked row is the current theme; with no marked row, the trigger shows the sun |
| ThemeSwitcher.ThemeSwitcherState.constructor | src/components/ui/ThemeSwitcher.tsx:10-12 | not mounted and menu closed |
| ThemeSwitcher.ThemeSwitcherState.Mount | src/components/ui/ThemeSwitcher.tsx:15-17 | the mount effect sets mounted |
| ThemeSwitcher.ThemeSwitcherState.ToggleMenu | src/components/ui/ThemeSwitcher.tsx:39 | the trigger flips the menu flag |
| ThemeSwitcher.ThemeSwitcherState.CloseBackdrop | src/components/ui/ThemeSwitcher.tsx:58 | a backdrop click closes the menu |
| ThemeSwitcher.ThemeSwitcherState.ChooseOption | src/components/ui/ThemeSwitcher.tsx:78-81 | choosing an option requests that theme's value and closes the menu |
| ThemeSwitcher.ThemeSwitcherState.View | src/components/ui/ThemeSwitcher.tsx:19-23 | the placeholder is shown iff not mounted |
| LanguageSwitcher.LocalesTable | src/components/ui/LanguageSwitcher.tsx:9-14 | the table holds exactly en, fr, de and ar, in that order, with distinct codes |
| LanguageSwitcher.CurrentLocale | src/components/ui/LanguageSwitcher.tsx:23 | the entry whose code is the locale, or English when none matches |
| LanguageSwitcher.UnknownLocaleIsEnglish | src/components/ui/LanguageSwitcher.tsx:9-23 | any locale other than fr, de or ar selects English |
| LanguageSwitcher.Rows | src/components/ui/LanguageSwitcher.tsx:72-73 | one row per locale, in order, marked active iff its code equals the locale |
| LanguageSwitcher.AtMostOneActiveRow | src/components/ui/LanguageSwitcher.tsx:73 | at most one row is marked active, and it is the current locale whose flag the trigger shows |
| LanguageSwitcher.LanguageSwitcherState.constructor | src/components/ui/LanguageSwitcher.tsx:21 | the menu starts closed |
| LanguageSwitcher.LanguageSwitcherState.ToggleMenu | src/components/ui/LanguageSwitcher.tsx:37 | the trigger flips the menu flag |
| LanguageSwitcher.LanguageSwitcherState.CloseBackdrop | src/components/ui/LanguageSwitcher.tsx:59 | a backdrop click closes the menu |
| LanguageSwitcher.LanguageSwitcherState.HandleLocaleChange | src/components/ui/LanguageSwitcher.tsx:25-30 | the same path is requested in the new locale and the menu closes |
| LanguageSwitcher.LanguageSwitcherState.ChooseRow | src/components/ui/LanguageSwitcher.tsx:78 | a row click requests the same path in that row's locale and closes the menu |

## Left out

- The contact form's `catch` branch, `useContactForm.ts:58-60`: nothing inside the `try` can throw as written (the await is a timer that always resolves).
  - Failure is still modelled, as the explicit `SubmitFailed` transition.
  - No real submission exists in the source; it is a 1500 ms placeholder.
- Submission scheduling: the 1500 ms and 3000 ms timers are not scheduled.
  - The model has the transitions they trigger; the caller chooses their order.
  - Because the order is free, `StaleTimerEndsLaterLoading` shows what a late timer does.
- framer-motion internals are not modelled: `useSpring` dynamics, `useTransform` interpolation and clamping, and every animate and transition setting.
  - Only the declared endpoint pairs of the rotation mappings are modelled.
  - Orb keyframes are modelled only to state that they loop.
- The hero background's parallax layer is not modelled (`mousePosition * 2`, `HeroBackground.tsx:90-95`). It is a float scaling passed to a spring.
- Browser and DOM plumbing is replaced by parameters: `getElementById`, `getBoundingClientRect`, `scrollIntoView`, `history.pushState`, scroll listeners.
  - The 300 ms delay before a mobile item's path is pushed is not modelled; the push is returned at once.
- Timers and intervals are not scheduled either. Each firing is one method call, and the caller chooses the interleaving.
  - `TypewriterText`'s `typingSpeed` and `delay` are kept as fields but do not change any state.
- Typewriter.TypewriterText: the text is fixed for the component's lifetime. A `text` prop that changes mid-typing, which would restart the timer with a stale counter, is not modelled.
- FooterTerminal.TerminalSocialLink: the `command` is fixed. A repeated mouse-enter is treated as a no-op, as React does not re-run the effect for an unchanged `isHovered`.
- Translations (next-intl), next-themes persistence and `router.replace` are outside the model. Theme and locale are read as parameters, and the requested value or navigation is returned.
  - Labels are kept as translation keys.
- Typewriter.TypewriterText.Tick: strings are sequences of Unicode scalar values. The source indexes `text[currentIndex]` and counts `text.length` in UTF-16 code units, so a character outside the Basic Multilingual Plane takes two ticks there, with a lone surrogate shown in between, and one tick here.
- FooterTerminal.Slice: `command.slice(0, n)` counts UTF-16 code units, whereas `Slice` counts Unicode scalar values; the two differ only for characters outside the Basic Multilingual Plane.
- AnimatedBackground.ParticleAt: the delay `i * 0.3` is an exact real here; the source computes it in binary floating point (for i = 3 it gives 0.8999999999999999), which is not modelled.
- Card3D.Offset: offsets are exact reals, so the identity centre + offset == pointer holds exactly here; with the source's floating-point numbers it holds only up to rounding.
- AnimatedBackground.Particles: `particleCount` is an integer. `Array.from` truncates a fractional length, which is not modelled.
- Theme and language menus: the lookup by value, the active marks and the open flag are modelled. Icons are a three-value datatype; class strings, hover motion and the `layoutId` indicator are left out.
- `ProjectCard` is modelled once, as `Card3D.TiltCard` with `Projects.ProjectCardOptions`: range 8 and spring {150, 20} without a mass. Its handlers match `use3DCard`'s line for line.
- Inline copies of these behaviours elsewhere in the repository are not modelled separately: `ContactSection.tsx`, `HeroSection.tsx`, `ui/Card3D.tsx`, `skills/SkillOrb.tsx`.
  - `Math.random()` particles, magnetic buttons, analytics and configuration are not part of this model either.
- Static data tables in `src/constants/` and markup-only components are not modelled.
  - The project table of `ProjectsSection.tsx` is kept, reduced to id, title and category, as the filter's fixture.

## Notes on the source

- `Offset` subtracts the box centre even for a zero-area box, so the offset is measured from its corner (`Card3D.DegenerateRectStillOffsets`).
- In `ThemeSwitcher`, a theme that matches no entry, or no theme yet, shows the sun icon with no row marked active (`ThemeSwitcher.ActiveRowIsCurrent`).
- The status timer is not cancelled when a new submission starts. If a submission could fail, the button would become enabled again while the timer is pending, so a quick resubmission could be shown as idle while it is still waiting (`ContactFormState.StaleTimerEndsLaterLoading`). This follows from the code as written. It is not claimed as a defect.
