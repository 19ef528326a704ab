# Portfolio site: a verified model of its behaviour

This project models the logic behind a personal portfolio web site (React, TypeScript) in Dafny. It covers the following parts:

- **Interactive 3D wave** (`wave.dfy`, module `Wave`). This is the animated background: a 50 x 50 grid of particles on a floor plane, seen through a pinhole camera with focal length 400. A wave ripples the grid. Each particle is pulled toward the mouse with an elastic offset that covers 8% of the remaining distance per frame. `Particle` and `ParticleField` are classes, because the component updates particle offsets and its particle list in place. `Advance` is the pure specification of one particle's update.
- **Content service** (`content.dfy`, module `Content`). These are the portfolio record types and the read-only queries over the project list: by id, featured, and by category.
- **Project cards** (`cards.dfy`, module `Cards`). A card cuts the tag row to 3 or 5 tags and adds a "+N more" badge. The projects-page card lists every achievement. The full card lists at most 3 achievements, and the compact card lists none. Badges and links appear only when their optional field is truthy (present and not the empty string).
- **Projects page** (`projects_page.dfy`, module `ProjectsPage`). The page has a category filter and a fetch per filter change, with loading and error flags. Loading takes precedence over the error, and the error over the list. The component is the class `Page`. Its pure specification is `Choose`/`Settle`, and the event traces are `Step`/`Run`.
- **Typing animation** (`typing.dfy`, module `Typing`). This is the state machine shared by the `TypingCode` and `TypingCodeAnimation` components. A typing interval adds one character per tick. A pause timeout then clears the text and restarts, and a caret interval blinks the caret. Both components are the class `TypingCode`, which has one named constructor per component.
- **Colour controls** (`color_controls.dfy`, module `ColorControls`). These are the single-key update of the ten-colour scheme, the five preset schemes with their exact hex values, and the label derived from each camelCase key ("primaryHeading" becomes "Primary Heading").
- **About section** (`about.dfy`, module `About`). This is the short bio: the bio split at '.', the first two pieces joined with '.', and a final '.' appended.
- **Contact page** (`contact.dfy`, module `ContactForm`). It covers the loading guard, the four-field form, and the submit status machine (idle, sending, success, idle). The `tel:` link is the phone number with whitespace removed.
- `options.dfy` declares the shared `Option` type.

Timers, intervals and asynchronous completions are modelled as events (`Step`/`Run` over an event sequence, or one method per callback). Their durations play no part in the model. Pending timers and in-flight fetches are sequences, and any pending one may fire or settle next.

Notes on following the code:

- **Theme change.** The wave effect lists the theme (`isDark`) among its dependencies (`Interactive3DWave.tsx:191`). A theme change therefore tears the effect down and runs `init` again, which rebuilds the grid and resets every offset. `ParticleField.SetTheme` models exactly this. So a theme change resets every offset as well as the colours.
- **Skip test before dividing.** The source computes `scale` before testing `originZ <= -400` (`Interactive3DWave.tsx:54-57`). At `originZ == -400` that is a division by zero in JavaScript (`Infinity`), and the particle is then skipped. The model tests the depth first and divides only in front of the camera, which gives the same observable outcome. The `scale <= 0` test that follows can never fire once the depth test has passed. It is kept in `Particle.Update` as written.
- **Truthiness.** JavaScript truthiness is explicit throughout. An optional string counts as shown only when it is present and not `""`. `featured` counts only when it is present and `true`. The projects page's error view needs a non-empty message.

## Model

| member | source | states |
|---|---|---|
| Wave.Particle.constructor | client/src/components/common/Interactive3DWave.tsx:19-27 | A new particle has the given origin and size, hue 280 + z/10, and both mouse offsets 0. |
| Wave.Color | client/src/components/common/Interactive3DWave.tsx:29-37 | In dark mode the dot keeps its hue at 80% saturation and 70% lightness. In light mode it is darker (70%, 30%), and its hue is 220 plus half the distance of the base hue from 280. |
| Wave.PalettesFollowDepth | client/src/components/common/Interactive3DWave.tsx:29-37 | The dark palette is hsl(hue, 80%, 70%) and keeps the depth order of hues. The light palette is hsl(220 + (hue-280)/2, 70%, 30%) and halves hue differences. |
| Wave.Scale | client/src/components/common/Interactive3DWave.tsx:53-57 | The perspective scale of any point in front of the camera plane is positive. |
| Wave.Influence | client/src/components/common/Interactive3DWave.tsx:73 | Inside the mouse radius the pull strength is in (0, 1]. |
| Wave.Target | client/src/components/common/Interactive3DWave.tsx:65-77 | Outside the radius the target offset is (0, 0). Inside it, each axis is at most 0.05 times the distance to the mouse on that axis, and points the same way. |
| Wave.Smooth | client/src/components/common/Interactive3DWave.tsx:79-83 | One smoothing step lands between the current offset and the target. Toward a zero target it multiplies the offset by 0.92. |
| Wave.DotRadius | client/src/components/common/Interactive3DWave.tsx:106 | The radius is positive. A large dot is wider than the perspective scale and a small one narrower, so at the same depth a large dot is always drawn bigger than a small one. |
| Wave.TrailColor | client/src/components/common/Interactive3DWave.tsx:157-160 | The trail is painted at 20% opacity, black in dark mode and white in light mode. |
| Wave.Advance | client/src/components/common/Interactive3DWave.tsx:39-94 | A particle at or behind the camera plane is skipped and left untouched. Otherwise only its offsets move, one smoothing step toward the mouse's target, and it paints one dot with its size's radius and its palette colour. Origin, hue and size never change. |
| Wave.TargetIgnoresOffsets | client/src/components/common/Interactive3DWave.tsx:61-67 | The target offset depends on the particle's fixed fields and the frame only, not on its current offsets. |
| Wave.AdvancePosition | client/src/components/common/Interactive3DWave.tsx:86-91 | A drawn dot sits at the base screen position plus the new offsets times the scale. |
| Wave.RunOutOfReach | client/src/components/common/Interactive3DWave.tsx:71-83 | Over any sequence of frames with the mouse out of reach, each frame is one smoothing step toward zero for both offsets. A skipped particle keeps its offsets. |
| Wave.RelaxDecays | client/src/components/common/Interactive3DWave.tsx:80-83 | Relaxing is geometric decay: after n frames the offset is 0.92^n of what it was, and it never grows from one frame to the next. |
| Wave.TargetWithinReach | client/src/components/common/Interactive3DWave.tsx:67-77 | With an exact square root, each axis of the target offset is at most 1/80 of the mouse radius. |
| Wave.AdvanceKeepsOffsetsBounded | client/src/components/common/Interactive3DWave.tsx:65-83 | With an exact square root, offsets within 1/80 of the mouse radius stay within it after every frame. |
| Wave.Particle.Render | client/src/components/common/Interactive3DWave.tsx:96-109 | The dot painted has radius 1.5 x scale (large) or 0.7 x scale (small), which is positive, and the palette colour. |
| Wave.Particle.Follow | client/src/components/common/Interactive3DWave.tsx:63-83 | Both offsets take one smoothing step toward the mouse target computed from the base screen position. |
| Wave.Particle.Update | client/src/components/common/Interactive3DWave.tsx:39-94 | The particle's new state and the dot it paints are exactly `Advance` of its old state. |
| Wave.GridParticle | client/src/components/common/Interactive3DWave.tsx:141-148 | The particle built for row i, column j lies on the floor y = height/4, takes its hue from its depth, starts at rest, and is large exactly when i + j is even. |
| Wave.GridLayout | client/src/components/common/Interactive3DWave.tsx:138-148 | `GridAt`, the particle at list index k, puts particle (i, j) at index i*50 + j, at x = (j-25)*20, z = (i-25)*20, y = height/4. Its hue comes from its depth, it starts at rest, and it is large exactly when i + j is even. |
| Wave.GridCheckerboard | client/src/components/common/Interactive3DWave.tsx:146 | Neighbours along a row or a column differ in size. |
| Wave.GridPositionsDistinct | client/src/components/common/Interactive3DWave.tsx:141-142 | No two grid particles share a position on the floor plane. |
| Wave.GridVisibility | client/src/components/common/Interactive3DWave.tsx:53-59 | Exactly rows 0..5 (indices below 300) are skipped. Every other row i is drawn at scale 20/(i-5). |
| Wave.GridHues | client/src/components/common/Interactive3DWave.tsx:23 | Grid hues span 230..328 degrees (328 in the last row), so light-mode hues stay within 195..244. |
| Wave.ParticleField.Mount | client/src/components/common/Interactive3DWave.tsx:116 | The mouse record starts at (-1000, -1000) with radius 250, and the grid is built. |
| Wave.ParticleField.Init | client/src/components/common/Interactive3DWave.tsx:131-151 | The old particles are discarded. The list becomes 2500 fresh, distinct particles, where particle k is grid cell (k / 50, k % 50) for the new height. Theme and mouse are unchanged. |
| Wave.ParticleField.MouseMove | client/src/components/common/Interactive3DWave.tsx:169-172 | The mouse takes the new position, and the radius and the particles stay. |
| Wave.ParticleField.SetTheme | client/src/components/common/Interactive3DWave.tsx:124-191 | The same theme changes nothing. A different theme rebuilds the whole grid for the current window size. |
| Wave.ParticleField.Animate | client/src/components/common/Interactive3DWave.tsx:153-167 | The frame paints the theme's trail colour, then one entry per particle in list order. Every particle's new state and dot are `Advance` of its old state. |
| Content.Filter | client/src/services/contentServices.ts:31-41 | `filter` keeps every occurrence of each accepted element and drops every rejected one, in order, and never lengthens the list. |
| Content.Find | client/src/services/contentServices.ts:26-29 | `find` gives nothing exactly when no element matches, and otherwise the first match. |
| Content.GetProjectById | client/src/services/contentServices.ts:26-29 | The result is absent exactly when no project has the id. Otherwise it is the first project with that id. |
| Content.GetFeaturedProjects | client/src/services/contentServices.ts:31-34 | The result is exactly the projects whose `featured` is true, each as many times as in the list, in their original order. |
| Content.GetProjectsByCategory | client/src/services/contentServices.ts:36-41 | The result is exactly the projects of that category, each as many times as in the list, in their original order. |
| Content.CategoryCounts | client/src/types/index.ts:13 | Every project has exactly one category, so the four category filters together have as many entries as the list. |
| Content.CategoriesPartitionProjects | client/src/services/contentServices.ts:21-41 | The four category queries together return as many projects as `getProjects`. |
| Cards.Take | client/src/components/cards/ProjectCard.tsx:43 | `slice(0, n)` is the prefix of length min(n, length). |
| Cards.Tags | client/src/components/cards/ProjectCard.tsx:42-56 | The first min(limit, n) tags are shown. "+N more" appears exactly when there are more than `limit`, and shown plus N equals all the tags. |
| Cards.TagsAccountForAll | client/src/components/cards/ProjectCard.tsx:51-54 | The tags shown plus the "+N more" count always add up to every technology. |
| Cards.Link | client/src/components/cards/ProjectCard.tsx:75-88 | A link is rendered exactly when its URL is truthy, and it points to that URL. |
| Cards.ProjectCard | client/src/components/cards/ProjectCard.tsx:8-110 | The image appears iff truthy, with the project's URL, and the Featured badge iff `featured` is true. There are 3 or 5 tags plus "+N more". At most 3 achievements appear, only on the full card and only if there are any. GitHub and Live Demo appear iff their URLs are truthy, and link to those URLs. |
| Cards.PageCard | client/src/pages/ProjectsPage.tsx:75-129 | The projects-page card has no image, 5 tags plus "+N more", every achievement, and the GitHub and Live Demo links shown iff their URLs are truthy, pointing to those URLs. |
| Cards.PageTagsMatchFullCard | client/src/pages/ProjectsPage.tsx:89-98 | The projects page cuts tags exactly like the full project card. The compact card shows a prefix of them. |
| ProjectsPage.Query | client/src/pages/ProjectsPage.tsx:15-18 | "all" asks for every project, and a category for exactly that category's projects, each as many times as in the list, in order. |
| ProjectsPage.Mounted | client/src/pages/ProjectsPage.tsx:6-14 | The first render is loading with no error and no projects, with the filter "all" and its fetch in flight. |
| ProjectsPage.Choose | client/src/pages/ProjectsPage.tsx:9-29 | Picking the current filter does nothing. A new filter raises `loading` and starts one fetch for it. |
| ProjectsPage.Settle | client/src/pages/ProjectsPage.tsx:12-26 | A settled fetch leaves the in-flight set and always clears `loading`. Success replaces the list with that fetch's result. Failure keeps the list and sets "Failed to load projects". |
| ProjectsPage.View | client/src/pages/ProjectsPage.tsx:31-131 | The loading view shows iff loading. The error view shows iff not loading and the message is non-empty. Otherwise one page card per project appears, in order. |
| ProjectsPage.Step | client/src/pages/ProjectsPage.tsx:31-70 | The filter buttons exist only in the list view, so a click while loading or while the error shows changes nothing. The filter changes only by such a click, which raises `loading` and starts a fetch for the new filter. A settle that names no fetch in flight changes nothing, and no settle changes the filter or adds a fetch. |
| ProjectsPage.RunAppend | client/src/pages/ProjectsPage.tsx:6-70 | Running two event traces one after the other gives the same page as running their concatenation. |
| ProjectsPage.RunKeepsConsistent | client/src/pages/ProjectsPage.tsx:11-32 | On any trace, a fetch is in flight exactly while loading, and only for the current filter. The only error is the load failure, shown only when settled. A settled page without error holds exactly its filter's projects. |
| ProjectsPage.ListMatchesFilter | client/src/pages/ProjectsPage.tsx:11-98 | From mount, whatever happens, at most one fetch is in flight. The list shown is never stale: it holds the cards of exactly the selected filter's projects. |
| ProjectsPage.ErrorIsFinal | client/src/pages/ProjectsPage.tsx:20-32 | After a failed load no event changes the page, because the error view has no filter buttons. It keeps showing the error. |
| ProjectsPage.PickThenSettle | client/src/pages/ProjectsPage.tsx:11-29 | Clicking another category shows the loading view with one fetch in flight. On success, the page lists that category's query result: each of its projects as many times as in the list, and nothing else. |
| ProjectsPage.Page.Mount | client/src/pages/ProjectsPage.tsx:6-14 | The component starts in the `Mounted` state. |
| ProjectsPage.Page.SetFilter | client/src/pages/ProjectsPage.tsx:43-70 | A filter button updates the state as `Choose` says. |
| ProjectsPage.Page.FetchSettled | client/src/pages/ProjectsPage.tsx:12-26 | The resumption of a fetch updates the state as `Settle` says. |
| Typing.Start | client/src/components/common/TypingCode.tsx:19-21 | The effect starts at index 0, typing, with nothing displayed and no pause scheduled. |
| Typing.Tick | client/src/components/common/TypingCode.tsx:23-37 | A typing tick adds the next character, or stops typing and schedules the pause once the code is complete. It does nothing while paused. It keeps the display equal to the first `index` characters. |
| Typing.Pause | client/src/components/common/TypingCode.tsx:30-34 | When the pause fires, the animation is back at its start. |
| Typing.TicksType | client/src/components/common/TypingCode.tsx:23-28 | From any point of the code, n ticks type exactly n more characters while there are any. |
| Typing.FullCycle | client/src/components/common/TypingCode.tsx:19-37 | |code| ticks display the whole code, one more stops typing, and the pause brings the cycle back to the start. |
| Typing.PausedTicksIdle | client/src/components/common/TypingCode.tsx:24 | While the pause is pending, any number of typing ticks change nothing. |
| Typing.TypingCode.TypingCode | client/src/components/common/TypingCode.tsx:10-21 | TypingCode starts at `Start` with the caret shown, blinking every 500 ms. |
| Typing.TypingCode.TypingCodeAnimation | client/src/components/common/TypingCodeAnimation.tsx:12-25 | TypingCodeAnimation starts the same way, with a configurable caret speed. |
| Typing.TypingCode.TypeTick | client/src/components/common/TypingCode.tsx:23-37 | The interval callback updates the state as `Tick` says, and leaves the caret alone. |
| Typing.TypingCode.PauseElapsed | client/src/components/common/TypingCode.tsx:30-34 | The timeout callback updates the state as `Pause` says. |
| Typing.TypingCode.CaretTick | client/src/components/common/TypingCode.tsx:39-41 | The caret interval flips the caret and changes nothing else. |
| About.Split | client/src/components/sections/AboutSection.tsx:11 | `split('.')` gives one more piece than there are '.' characters. No piece contains '.', and joining the pieces with '.' gives the bio back. |
| About.SplitJoin | client/src/components/sections/AboutSection.tsx:11 | `join` is the inverse of `split` on its output: joining pieces that contain no '.' and splitting the result again gives back the same pieces. |
| About.ShortBio | client/src/components/sections/AboutSection.tsx:11 | The short bio is never empty and always ends in '.'. |
| About.ShortBioOfShortBio | client/src/components/sections/AboutSection.tsx:11 | A bio with at most one '.' is kept whole, with '.' appended. |
| About.ShortBioCutsAtSecondDot | client/src/components/sections/AboutSection.tsx:11 | A bio with two or more '.' is cut right after its second '.'. The result is a prefix of the bio and holds exactly two '.'. |
| About.ShortBioDots | client/src/components/sections/AboutSection.tsx:11 | The short bio holds min(dots in bio, 1) + 1 dots. |
| ColorControls.HandleColorChange | client/src/components/design-system/ColorControls.tsx:22-24 | The chosen key takes the new value, and the other nine keep theirs. |
| ColorControls.ChangesCommute | client/src/components/design-system/ColorControls.tsx:22-24 | Changes to two different keys can be made in either order. |
| ColorControls.LastChangeWins | client/src/components/design-system/ColorControls.tsx:22-24 | Of two changes to the same key the second wins, so repeating a change is idempotent. |
| ColorControls.UnchangedValueIsNoChange | client/src/components/design-system/ColorControls.tsx:22-24 | Writing back a key's current value leaves the scheme unchanged. |
| ColorControls.Presets | client/src/components/design-system/ColorControls.tsx:26-102 | There are five presets, in the order Dark Purple, Minimal Grayscale, Blue Modern, Green Fresh, Orange Warm, with their hex values as listed. |
| ColorControls.PresetsDistinct | client/src/components/design-system/ColorControls.tsx:26-122 | The preset names, used as list keys, are pairwise distinct, and so are the schemes. |
| ColorControls.ApplyPreset | client/src/components/design-system/ColorControls.tsx:104-106 | Applying a preset replaces every colour with the preset's. |
| ColorControls.ApplyPresetIdempotent | client/src/components/design-system/ColorControls.tsx:104-106 | Applying a preset twice equals applying it once, and any change made before it is lost. |
| ColorControls.UpperFirst | client/src/components/design-system/ColorControls.tsx:139 | The first character is upper-cased and the rest is kept, with the same length. |
| ColorControls.UnspaceSpaceBeforeCaps | client/src/components/design-system/ColorControls.tsx:138 | Removing the spaces `SpaceBeforeCaps` inserted gives back the space-free key. |
| ColorControls.SpaceBeforeCaps | client/src/components/design-system/ColorControls.tsx:138 | Inserting a space before each capital makes the key exactly one character longer per capital. |
| ColorControls.Label | client/src/components/design-system/ColorControls.tsx:137-139 | A label is one character longer than its key per capital: one space per word break, and capitalising the first letter keeps the length. |
| ColorControls.SpaceBeforeCapsNoCaps | client/src/components/design-system/ColorControls.tsx:138 | A word without capitals gets no spaces. |
| ColorControls.LabelWords | client/src/components/design-system/ColorControls.tsx:137-139 | For a key starting in lower case, the label is its capitalised first letter followed by the spaced rest. |
| ColorControls.SpaceTwoWords | client/src/components/design-system/ColorControls.tsx:138 | In a two-word camelCase key only the capital between the words gets a space. |
| ColorControls.TwoWordLabel | client/src/components/design-system/ColorControls.tsx:137-139 | Every two-word camelCase key `firstSecond` is labelled "First Second". |
| ColorControls.PrimaryHeadingLabel | client/src/components/design-system/ColorControls.tsx:137-139 | The key primaryHeading is labelled "Primary Heading". |
| ColorControls.BodyTextLabel | client/src/components/design-system/ColorControls.tsx:137-139 | The key bodyText is labelled "Body Text". |
| ContactForm.SetField | client/src/pages/ContactPage.tsx:42-47 | The named field takes the value, and the other three keep theirs. |
| ContactForm.SetFieldLaws | client/src/pages/ContactPage.tsx:42-47 | Retyping a field's current value changes nothing, and of two edits of one field the last wins. |
| ContactForm.EditsCommute | client/src/pages/ContactPage.tsx:42-47 | Edits of different fields can be made in either order. |
| ContactForm.Mounted | client/src/pages/ContactPage.tsx:7-14 | The page starts with no contact, an empty form, status idle and no timer pending. |
| ContactForm.Loaded | client/src/pages/ContactPage.tsx:19-22 | The loaded contact is stored, and nothing else changes. |
| ContactForm.Change | client/src/pages/ContactPage.tsx:42-47 | One form field changes, and the contact, status and timers are unchanged. |
| ContactForm.Submit | client/src/pages/ContactPage.tsx:27-32 | The status becomes sending and the completion timer is scheduled, whatever the previous status. The form keeps its values. |
| ContactForm.Fire | client/src/pages/ContactPage.tsx:32-39 | The completion timer sets success, clears all four fields and schedules the return to idle. That timer sets idle. |
| ContactForm.Step | client/src/pages/ContactPage.tsx:49-286 | Before the contact loads there are no inputs, so edits change nothing. A submission the browser blocks (not loaded, already sending, or a required field empty) changes nothing. Sending starts only from an allowed submission. The form changes only by typing into the shown form, or by being cleared when the send completes. A timer event that names no pending timer changes nothing. |
| ContactForm.RunAppend | client/src/pages/ContactPage.tsx:7-47 | Running two event traces one after the other gives the same page as running their concatenation. |
| ContactForm.RunKeepsConsistent | client/src/pages/ContactPage.tsx:14-39 | On any trace the status never becomes error. While sending, the completion timer is pending. While showing success, a return to idle is pending. |
| ContactForm.NeverErrorAndQuiescentIsIdle | client/src/pages/ContactPage.tsx:14-39 | From mount the declared `error` status is never reached, and with no timer pending the page is idle. |
| ContactForm.SubmitCycle | client/src/pages/ContactPage.tsx:27-39 | A submission left to run goes sending, then success with a cleared form, then idle. |
| ContactForm.FillInSetsForm | client/src/pages/ContactPage.tsx:219-280 | Typing the four inputs in turn replaces the form with what was typed. |
| ContactForm.StaleTimerEndsSending | client/src/pages/ContactPage.tsx:27-39 | The first submission's idle timer is not cancelled by a second send. When the second message is sent in the last 1.5 s of the 5 s success window, it is still sending when that timer fires, so the status drops to idle and the button is re-enabled with the send pending. |
| ContactForm.StripWhitespace | client/src/pages/ContactPage.tsx:129 | The `tel:` number contains no whitespace character. It keeps every other character of the phone string in order, and is shorter by exactly the number of whitespace characters. |
| ContactForm.StripWhitespaceNone | client/src/pages/ContactPage.tsx:129 | A phone number without whitespace is linked as written. |
| ContactForm.View | client/src/pages/ContactPage.tsx:49-305 | Only the loading view shows while the contact is missing. Otherwise it shows the mailto and whitespace-free tel links. The success banner shows iff the status is success. The submit button is disabled, and reads "Sending...", iff sending. |
| ContactForm.ButtonAndBannerExclusive | client/src/pages/ContactPage.tsx:200-286 | The disabled button and the success banner never show together. |
| ContactForm.ContactPage.Mount | client/src/pages/ContactPage.tsx:7-14 | The component starts in the `Mounted` state. |
| ContactForm.ContactPage.ContactLoaded | client/src/pages/ContactPage.tsx:19-22 | The fetch completion updates the state as `Loaded` says. |
| ContactForm.ContactPage.HandleChange | client/src/pages/ContactPage.tsx:42-47 | The change handler updates the state as `Change` says. |
| ContactForm.ContactPage.HandleSubmit | client/src/pages/ContactPage.tsx:27-32 | The submit handler updates the state as `Submit` says. |
| ContactForm.ContactPage.FireTimer | client/src/pages/ContactPage.tsx:32-39 | A timeout callback updates the state as `Fire` says. |

## Left out

- Floating point. Coordinates, scales and offsets are exact reals, so rounding and `NaN`/`Infinity` are not modelled.
- The wave term (a sine plus a cosine of the frame time) and the mouse distance's square root. Every frame receives them as the functions `wave` and `sqrt`. Bounds that need a true square root assume one in their precondition.
- Canvas drawing (`fillStyle`, `arc`, `fillRect`). The model returns the trail colour and, per particle, the dot (position, radius, colour) that would be drawn.
- The `requestAnimationFrame` loop, listener registration and cleanup, and the early return when the canvas or its 2D context is missing. A frame, a mouse move, a resize (`Init`) and a theme change are each one method call.
- Wave.ParticleField.Animate: the particles are required to be distinct objects, which `Init` guarantees. Aliasing between particle lists of different fields is not modelled.
- Content.GetAll, Content.GetProjects: modelled as returning the record or list as it is, with no contract of their own. `getAbout`, `getSkills`, `getExperience`, `getEducation` and `getContact` are field reads and are not separate members. The 100 ms simulated delay and the commented-out network client are not modelled.
- Timer and interval durations (typing speed, pause duration, caret speed, 1500 ms and 5000 ms). They are kept only as configuration. Pending timers may fire in any order, so the model allows more interleavings than real time does.
- Typing.Tick: the code is a sequence of Unicode scalar values, while `length` and `substring` in the source count UTF-16 code units. A character outside the Basic Multilingual Plane therefore takes one tick here but two in the source, which briefly shows half of a surrogate pair. For code within that plane the two agree.
- The typing effect's restart when `code`, `typingSpeed` or `pauseDuration` change, and the pause timeout that cleanup does not clear.
- ProjectsPage.Page.SetFilter: the method models the setter without the rendering guard. The guard that filter buttons exist only in the list view is applied by `ProjectsPage.Step`.
- ContactForm.Step: the browser's `type="email"` format check is not modelled. A submission needs only all four required fields to be non-empty.
- ColorControls: `toUpperCase` and the regular expression `[A-Z]` are modelled for ASCII letters only. Of the ten keys, only "primaryHeading" and "bodyText" are checked against their literal labels. All ten keys have the shape `firstSecond`, and the general lemma `TwoWordLabel` covers them.
- ColorSwatch (computed styles, clipboard), `window.scrollTo`, analytics, and the purely presentational components, layout and routing. Navbar's menu toggle is also left out.
