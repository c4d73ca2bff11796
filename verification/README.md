# SoulCore Legacy UI — a verified model of its behavioural core

SoulCore Legacy is a React front end: a cosmic-themed landing page with animated
backgrounds, an emotional avatar and a "Soul Guide" chat widget. Its behaviour, once
rendering, animation libraries, timers and randomness are set aside, is a handful of rule
tables, one per-frame particle update and one chat state machine. This project models
that behaviour in Dafny and proves what the components promise about it.

One module per component file:

- `ParticleField` — configuration lookups, particle creation and the per-frame tick that
  moves each particle, reflects it off the edges of the percentage space and lists the
  pairs close enough to be joined by a line. The particle set is a class (`Field`) whose
  methods update it in place.
- `SoulGuide` — `trim`, `toLowerCase` and `includes`, the ordered keyword rules that
  choose the guide's reply, and the chat state (`Chat`) that the send handler, the Enter
  key and the two reply timers update. Each handler is specified by a pure transition on
  `ChatState`; lemmas about the transitions state the chat's properties.
- `Emotions` — the sixteen avatar states and the glow each one shows.
- `SoulGuideAvatar` — the twenty colour-bucketed particles of the Soul Guide's orb and the
  state → orb settings table.
- `CosmicBackground` — intensity and colour-scheme tables and the effect that rebuilds
  the container's star field, orbs and nebula layer.
- `ParallaxBackground` — star and nebula generation, the three depth layers, and the
  pointer-driven layer offsets.
- `Basics` (Option, random draws) and `Theme` (the design tokens the components read).

Modelling conventions:

- Every `Math.random()` value is a caller-supplied real in [0, 1), passed in the order
  the source draws them (`Basics.InUnit`); `Math.floor(r * n)` is `Basics.PickIndex`.
- JavaScript numbers are `real`; canvas widths and heights are `nat`.
- A missing DOM element or drawing context is a boolean parameter; the guarded code then
  does nothing, as in the source.
- The connection test `sqrt(dx*dx + dy*dy) < 100` is modelled on the squared distance;
  `ParticleField.NearIffWithinRadius` shows the two tests agree.
- The chat's nested timers become two explicit transitions. `pending` holds, oldest first,
  the texts whose reply has not been delivered; `thinking` counts those whose first timer
  has fired. The reply closure captured the raw input at send time, so the reply is chosen
  from the untrimmed text.
- The guide's six canned replies are the tags of `SoulGuide.Answer`; `AnswerText` gives
  each one's exact wording and `Display` the characters a message shows
  (`ReplyShowsAnswer`).

## Model

| member | source | states |
|---|---|---|
| Basics.PickIndex | soulcore-legacy-ui/src/components/BackgroundEffects/ParticleField.tsx:131 | `Math.floor(r * n)` for r in [0, 1) is a valid index below n, the integer part of r·n |
| Basics.Pick | soulcore-legacy-ui/src/components/BackgroundEffects/ParticleField.tsx:131 | `xs[Math.floor(r * xs.length)]` for r in [0, 1) is always one of the entries of xs |
| ParticleField.SpeedFactor | soulcore-legacy-ui/src/components/BackgroundEffects/ParticleField.tsx:88-94 | the speed factor is 0.2 for "slow", 0.8 for "fast", 0.5 otherwise, so always in [0.2, 0.8] |
| ParticleField.SizeFactor | soulcore-legacy-ui/src/components/BackgroundEffects/ParticleField.tsx:97-103 | the size factor is 0.5 for "small", 2 for "large", 1 otherwise, so always in [0.5, 2] |
| ParticleField.Palette | soulcore-legacy-ui/src/components/BackgroundEffects/ParticleField.tsx:54-85 | every colour scheme has exactly four colours; an unknown scheme gives the default palette |
| ParticleField.ConfigurationTables | soulcore-legacy-ui/src/components/BackgroundEffects/ParticleField.tsx:54-103 | the documented values of the lookups and that every unknown setting falls back to "medium" / the default palette |
| ParticleField.CenteredDraw | soulcore-legacy-ui/src/components/BackgroundEffects/ParticleField.tsx:129-130 | `(r - 0.5) * factor` lies in [-0.5·factor, 0.5·factor) |
| ParticleField.SizeDraw | soulcore-legacy-ui/src/components/BackgroundEffects/ParticleField.tsx:126 | `(r * 2 + 1) * factor`, the particle's width and height in pixels, lies in [factor, 3·factor) |
| ParticleField.Spawn | soulcore-legacy-ui/src/components/BackgroundEffects/ParticleField.tsx:126-131 | a new particle has x, y in [0, 100), speeds in [-0.5, 0.5)·speedFactor, size in [1, 3)·sizeFactor and a palette colour |
| ParticleField.Bounce | soulcore-legacy-ui/src/components/BackgroundEffects/ParticleField.tsx:189-201 | after moving, a coordinate outside [0, 100] is clamped to the nearer edge and its speed negated; inside, position advances and speed is kept; the result is always in range with the same speed magnitude |
| ParticleField.Step | soulcore-legacy-ui/src/components/BackgroundEffects/ParticleField.tsx:187-201 | one particle's move-and-bounce: both coordinates end in [0, 100], size and colour are kept, speed magnitudes are kept; each axis is exactly one independent bounce of that coordinate with its own speed |
| ParticleField.RowLinks | soulcore-legacy-ui/src/components/BackgroundEffects/ParticleField.tsx:244-264 | the reference row of the pair scan: every line it lists starts at particle i and ends at a later particle j below k |
| ParticleField.RowLinksExact | soulcore-legacy-ui/src/components/BackgroundEffects/ParticleField.tsx:244-264 | the lines of row i join exactly (i, j) for j in i+1 .. k-1 within the radius, using i's moved and j's unmoved position, in increasing j |
| ParticleField.RowLinksOrdered | soulcore-legacy-ui/src/components/BackgroundEffects/ParticleField.tsx:244-264 | the lines of one row come in increasing j |
| ParticleField.ScanRow | soulcore-legacy-ui/src/components/BackgroundEffects/ParticleField.tsx:244-264 | the inner loop of a frame produces exactly the lines of row i |
| ParticleField.RowLinksFromI | soulcore-legacy-ui/src/components/BackgroundEffects/ParticleField.tsx:244-264 | row i depends only on the particles from i on, so stepping earlier particles does not change it |
| ParticleField.ConcatOrdered | soulcore-legacy-ui/src/components/BackgroundEffects/ParticleField.tsx:244-264 | appending a later row to earlier rows keeps the lines in drawing order |
| ParticleField.LinksBefore | soulcore-legacy-ui/src/components/BackgroundEffects/ParticleField.tsx:187-264 | the lines of rows 0 .. m-1, in drawing order; every one starts at a particle below m |
| ParticleField.LinksBeforeMembers | soulcore-legacy-ui/src/components/BackgroundEffects/ParticleField.tsx:187-264 | rows 0 .. m-1 hold exactly the close pairs (i, j) with i below m |
| ParticleField.LinksBeforeOrdered | soulcore-legacy-ui/src/components/BackgroundEffects/ParticleField.tsx:187-264 | rows 0 .. m-1, drawn one after another, are in drawing order |
| ParticleField.LinksBeforeExact | soulcore-legacy-ui/src/components/BackgroundEffects/ParticleField.tsx:187-264 | the lines of rows 0 .. m-1 are exactly the tick links with first index below m, strictly ordered |
| ParticleField.TickLinks | soulcore-legacy-ui/src/components/BackgroundEffects/ParticleField.tsx:178-266 | all lines of one frame; each joins a particle to a later one, never a particle to itself |
| ParticleField.TickLinksExact | soulcore-legacy-ui/src/components/BackgroundEffects/ParticleField.tsx:244-264 | a tick's lines join exactly the pairs i < j within the radius (i already moved, j not yet); no self-pairs, each pair at most once, in drawing order |
| ParticleField.Near | soulcore-legacy-ui/src/components/BackgroundEffects/ParticleField.tsx:257 | the connection test on the squared pixel distance; two particles it connects are less than 100 px apart along each axis |
| ParticleField.NearIffWithinRadius | soulcore-legacy-ui/src/components/BackgroundEffects/ParticleField.tsx:252-257 | for a distance d ≥ 0 with d² = squared, squared < 100² iff d < 100 |
| ParticleField.LineAlpha | soulcore-legacy-ui/src/components/BackgroundEffects/ParticleField.tsx:261 | the stroke alpha 0.2·(1 − d/100) of a drawn line lies in (0, 0.2], 0.2 at distance 0 |
| ParticleField.LineAlphaDecreasing | soulcore-legacy-ui/src/components/BackgroundEffects/ParticleField.tsx:261 | closer pairs are drawn strictly more opaque |
| ParticleField.DrawnLineAlpha | soulcore-legacy-ui/src/components/BackgroundEffects/ParticleField.tsx:252-261 | every line a frame draws joins particles less than 100 px apart, so its stroke alpha lies in (0, 0.2] |
| ParticleField.Excited | soulcore-legacy-ui/src/components/BackgroundEffects/ParticleField.tsx:217-221 | the attraction test `distance < 150` on the non-negative `Math.sqrt(dx*dx + dy*dy)` agrees with dx² + dy² < 150² |
| ParticleField.AttractFactor | soulcore-legacy-ui/src/components/BackgroundEffects/ParticleField.tsx:221-222 | the attraction coefficient lies in [0, 0.03] and is positive exactly within 150 px |
| ParticleField.AttractFactorDecreasing | soulcore-legacy-ui/src/components/BackgroundEffects/ParticleField.tsx:222 | attraction weakens with distance |
| ParticleField.Field.constructor | soulcore-legacy-ui/src/components/BackgroundEffects/ParticleField.tsx:48 | the particle list starts empty |
| ParticleField.Field.Initialize | soulcore-legacy-ui/src/components/BackgroundEffects/ParticleField.tsx:107-153 | without a container nothing changes; otherwise the old particles are discarded and exactly `count` particles are created, particle k from draw k with the configured factors and palette |
| ParticleField.Field.Tick | soulcore-legacy-ui/src/components/BackgroundEffects/ParticleField.tsx:178-266 | without a drawing surface nothing changes; otherwise every particle is stepped in place (count, order, size and colour kept, all inside [0, 100]²) and the lines drawn are exactly the tick links |
| Emotions.FindByName | soulcore-legacy-ui/src/components/CognitiveBuddyAvatar/CognitiveBuddyAvatar.tsx:10-26 | a found state is among the candidates and has the given literal; none found means no candidate has it |
| Emotions.Parse | soulcore-legacy-ui/src/components/CognitiveBuddyAvatar/CognitiveBuddyAvatar.tsx:10-26 | a string is a state exactly when it is one of the union's literals |
| Emotions.AllListed | soulcore-legacy-ui/src/components/CognitiveBuddyAvatar/CognitiveBuddyAvatar.tsx:10-26 | every state appears in the list of the union's members |
| Emotions.SixteenStates | soulcore-legacy-ui/src/components/CognitiveBuddyAvatar/CognitiveBuddyAvatar.tsx:10-26 | there are exactly sixteen states, with pairwise distinct literals |
| Emotions.NameInjective | soulcore-legacy-ui/src/components/CognitiveBuddyAvatar/CognitiveBuddyAvatar.tsx:10-26 | distinct states have distinct literals |
| Emotions.ParseName | soulcore-legacy-ui/src/components/CognitiveBuddyAvatar/CognitiveBuddyAvatar.tsx:10-26 | reading back a state's literal gives that state |
| Emotions.GlowFor | soulcore-legacy-ui/src/components/CognitiveBuddyAvatar/CognitiveBuddyAvatar.tsx:62-67 | the glow is aurora blue iff the state is competitive, determined or focusedProblemSolving; soft gold iff happy, elated or playful; transparent otherwise |
| Emotions.GlowGroupsDisjoint | soulcore-legacy-ui/src/components/CognitiveBuddyAvatar/CognitiveBuddyAvatar.tsx:63-66 | the two coloured groups share no state, so the glow is a total function of the state |
| Emotions.GlowCss | soulcore-legacy-ui/src/components/CognitiveBuddyAvatar/CognitiveBuddyAvatar.tsx:62-66 | the CSS colour of each glow: the string is `transparent` exactly for the transparent glow, and the two coloured glows are `rgba(` colours |
| Emotions.GlowCssDistinct | soulcore-legacy-ui/src/components/CognitiveBuddyAvatar/CognitiveBuddyAvatar.tsx:62-66 | the three glow colours are distinct CSS strings |
| Emotions.DefaultIsTransparent | soulcore-legacy-ui/src/components/CognitiveBuddyAvatar/CognitiveBuddyAvatar.tsx:34 | the default state is idle, and idle shows no glow |
| SoulGuide.TrimStartShape | soulcore-legacy-ui/src/components/SoulGuide/SoulGuide.tsx:227 | the leading trim removes a white-space-only prefix and nothing else: the rest is empty exactly for all-white-space input and otherwise starts at a visible character |
| SoulGuide.TrimEndKeepsFirst | soulcore-legacy-ui/src/components/SoulGuide/SoulGuide.tsx:227 | stripping trailing white space keeps a leading visible character |
| SoulGuide.TrimEndShape | soulcore-legacy-ui/src/components/SoulGuide/SoulGuide.tsx:227 | the trailing trim removes a white-space-only suffix and nothing else, and leaves the text ending in a visible character |
| SoulGuide.Trim | soulcore-legacy-ui/src/components/SoulGuide/SoulGuide.tsx:227 | `trim()` is the slice of the input between a white-space-only prefix and a white-space-only suffix, and a non-empty result starts and ends with a visible character |
| SoulGuide.IsBlank | soulcore-legacy-ui/src/components/SoulGuide/SoulGuide.tsx:227 | the send guard rejects exactly the inputs made only of white space, the empty input included |
| SoulGuide.LowerChar | soulcore-legacy-ui/src/components/SoulGuide/SoulGuide.tsx:253 | ASCII capitals map to their lower-case letters, every other character is kept |
| SoulGuide.ToLower | soulcore-legacy-ui/src/components/SoulGuide/SoulGuide.tsx:253 | lower-casing keeps the length and lower-cases character by character |
| SoulGuide.NoCapitalAt | soulcore-legacy-ui/src/components/SoulGuide/SoulGuide.tsx:253 | a text found capital-free from position i on has no capital at any later position |
| SoulGuide.ToLowerKeeps | soulcore-legacy-ui/src/components/SoulGuide/SoulGuide.tsx:253 | a text without capitals is unchanged by lower-casing |
| SoulGuide.MatchesFromIff | soulcore-legacy-ui/src/components/SoulGuide/SoulGuide.tsx:255 | the character-by-character comparison agrees with slice equality |
| SoulGuide.IncludesFromIff | soulcore-legacy-ui/src/components/SoulGuide/SoulGuide.tsx:255 | the position-by-position search succeeds iff the word occurs at some position from k on |
| SoulGuide.Includes | soulcore-legacy-ui/src/components/SoulGuide/SoulGuide.tsx:255-267 | `includes` finds the empty word in every text and never a word longer than the text (`IncludesIff` gives the full characterisation) |
| SoulGuide.IncludesIff | soulcore-legacy-ui/src/components/SoulGuide/SoulGuide.tsx:255-267 | `includes` holds iff the word occurs somewhere in the text |
| SoulGuide.AnyIncludedIff | soulcore-legacy-ui/src/components/SoulGuide/SoulGuide.tsx:255-267 | a rule fires iff the text includes at least one of its keywords |
| SoulGuide.FirstMatchIsFirst | soulcore-legacy-ui/src/components/SoulGuide/SoulGuide.tsx:255-273 | the chosen index is a rule that fires and no earlier rule fires; when none fires it is the rule count |
| SoulGuide.ChooseReply | soulcore-legacy-ui/src/components/SoulGuide/SoulGuide.tsx:253-273 | the reply is one of the five rules (hello/hi, help/guide, sad/depress/unhappy, game/play, challenge/difficult) or the curious fallback |
| SoulGuide.ChooseReplyFirstMatch | soulcore-legacy-ui/src/components/SoulGuide/SoulGuide.tsx:253-273 | the reply comes from the first rule whose keyword the lower-cased text includes, and it is the curious fallback exactly when no rule matches |
| SoulGuide.ReplyOfLowerCase | soulcore-legacy-ui/src/components/SoulGuide/SoulGuide.tsx:253-273 | for a text already in lower case, the reply is read off the rules without any case change |
| SoulGuide.ExcludedByLetter | soulcore-legacy-ui/src/components/SoulGuide/SoulGuide.tsx:255-267 | a keyword holding a character the text lacks is not included in it |
| SoulGuide.ExcludedByLength | soulcore-legacy-ui/src/components/SoulGuide/SoulGuide.tsx:255-267 | a keyword longer than the text is not included in it |
| SoulGuide.ChallengeTextGetsGreeting | soulcore-legacy-ui/src/components/SoulGuide/SoulGuide.tsx:255-269 | "this is a challenge" fires the greeting rule ("hi" in "this") although it also matches the challenge rule |
| SoulGuide.HelpBeforePlay | soulcore-legacy-ui/src/components/SoulGuide/SoulGuide.tsx:258-266 | "help me play" fires the help rule first although it also matches the game rule |
| SoulGuide.ChallengeExample | soulcore-legacy-ui/src/components/SoulGuide/SoulGuide.tsx:255-257 | "this is a challenge" is answered with the happy greeting |
| SoulGuide.HelpPlayExample | soulcore-legacy-ui/src/components/SoulGuide/SoulGuide.tsx:258-260 | "help me play" is answered empathetically |
| SoulGuide.CaseExample | soulcore-legacy-ui/src/components/SoulGuide/SoulGuide.tsx:253-257 | "HELLO" gets the greeting: matching ignores case |
| SoulGuide.FallbackExample | soulcore-legacy-ui/src/components/SoulGuide/SoulGuide.tsx:253-273 | "ok" matches no rule and gets the curious fallback |
| SoulGuide.Welcome | soulcore-legacy-ui/src/components/SoulGuide/SoulGuide.tsx:205-218 | an empty conversation gets exactly the greeting, as a happy guide message, and the avatar turns happy; a non-empty one is left as it is; input and pending replies are untouched |
| SoulGuide.Send | soulcore-legacy-ui/src/components/SoulGuide/SoulGuide.tsx:226-243 | the state changes exactly when the input is not blank; then the raw input is appended as a user message, the input cleared, the avatar listens, typing starts and the text joins the pending replies; timer consistency is kept |
| SoulGuide.StartThinking | soulcore-legacy-ui/src/components/SoulGuide/SoulGuide.tsx:244-245 | the oldest waiting send passes its first timer: the avatar thinks, and messages, input and pending replies are untouched |
| SoulGuide.DeliverReply | soulcore-legacy-ui/src/components/SoulGuide/SoulGuide.tsx:247-286 | exactly one guide message is appended after the existing ones, carrying the guide's new emotion; typing stops; the oldest pending text is consumed; the input is untouched |
| SoulGuide.ReplyShowsAnswer | soulcore-legacy-ui/src/components/SoulGuide/SoulGuide.tsx:253-285 | the posted reply shows the wording of the rule the oldest pending text selects, and the guide takes that rule's emotion |
| SoulGuide.KeyPress | soulcore-legacy-ui/src/components/SoulGuide/SoulGuide.tsx:291-295 | Enter does exactly what the send handler does and any other key changes nothing; any change posts the raw input as a user message and clears the input |
| SoulGuide.Apply | soulcore-legacy-ui/src/components/SoulGuide/SoulGuide.tsx:205-354 | every event keeps the timers consistent; only mount, a key, the button and the reply timer change the messages; a timer with nothing pending does nothing |
| SoulGuide.Run | soulcore-legacy-ui/src/components/SoulGuide/SoulGuide.tsx:205-354 | any sequence of events keeps the timers consistent |
| SoulGuide.BlankSendIsNoOp | soulcore-legacy-ui/src/components/SoulGuide/SoulGuide.tsx:227 | a send of an empty or white-space-only input changes nothing |
| SoulGuide.SendAppendsRawInput | soulcore-legacy-ui/src/components/SoulGuide/SoulGuide.tsx:230-242 | a valid send appends exactly one user message with the untrimmed input, clears the input, sets listening and marks the guide typing |
| SoulGuide.EnterMatchesButton | soulcore-legacy-ui/src/components/SoulGuide/SoulGuide.tsx:291-295 | pressing Enter does exactly what clicking the send button does, including under the disabled controls |
| SoulGuide.TypeInput | soulcore-legacy-ui/src/components/SoulGuide/SoulGuide.tsx:350 | typing sets the input to exactly the typed text and changes nothing else (messages, typing flag, emotion, pending replies) |
| SoulGuide.InputEnabled | soulcore-legacy-ui/src/components/SoulGuide/SoulGuide.tsx:352 | the input is disabled while the guide is typing; under the single-reply invariant, it is enabled exactly when no sent text waits for its answer |
| SoulGuide.SendEnabled | soulcore-legacy-ui/src/components/SoulGuide/SoulGuide.tsx:354 | the button is enabled iff the input is not all white space and no reply is pending; pressing an enabled button always sends and starts typing |
| SoulGuide.AnswerText | soulcore-legacy-ui/src/components/SoulGuide/SoulGuide.tsx:256-271 | the six canned reply texts, one per answer, word for word (no contract: a property of texts this long is beyond the solver's budget) |
| SoulGuide.WelcomeOnce | soulcore-legacy-ui/src/components/SoulGuide/SoulGuide.tsx:205-218 | an empty conversation starts with one happy guide message carrying the initial message; the effect does nothing once messages exist |
| SoulGuide.ApplyAppends | soulcore-legacy-ui/src/components/SoulGuide/SoulGuide.tsx:237 | any single event keeps all earlier messages and adds at most one |
| SoulGuide.RunAppends | soulcore-legacy-ui/src/components/SoulGuide/SoulGuide.tsx:237 | over any sequence of events, messages are only appended, never changed or removed |
| SoulGuide.InitialSingleReply | soulcore-legacy-ui/src/components/SoulGuide/SoulGuide.tsx:198-218 | the initial state and the state after the welcome effect satisfy the single-reply invariant |
| SoulGuide.ApplyKeepsSingleReply | soulcore-legacy-ui/src/components/SoulGuide/SoulGuide.tsx:352-354 | with the input and button disabled while typing, at most one reply is pending, exactly while the guide is typing |
| SoulGuide.RunKeepsSingleReply | soulcore-legacy-ui/src/components/SoulGuide/SoulGuide.tsx:242 | that invariant holds over every sequence of events |
| SoulGuide.SendThenTimers | soulcore-legacy-ui/src/components/SoulGuide/SoulGuide.tsx:226-286 | the three states a send and its two timers pass through, field by field |
| SoulGuide.SendThenReply | soulcore-legacy-ui/src/components/SoulGuide/SoulGuide.tsx:237-285 | a send and its two timers append the user message and then the guide's reply tagged with its emotion, clear the input and leave nothing pending |
| SoulGuide.SendThenReplyMood | soulcore-legacy-ui/src/components/SoulGuide/SoulGuide.tsx:239-285 | along that run the emotion goes listening → thinking → the reply's emotion, and typing is on until the reply arrives |
| SoulGuide.Chat.constructor | soulcore-legacy-ui/src/components/SoulGuide/SoulGuide.tsx:198-201 | no messages, empty input, not typing, idle |
| SoulGuide.Chat.WelcomeEffect | soulcore-legacy-ui/src/components/SoulGuide/SoulGuide.tsx:205-218 | the welcome effect on the widget's state |
| SoulGuide.Chat.SetInput | soulcore-legacy-ui/src/components/SoulGuide/SoulGuide.tsx:350 | typing replaces the input and nothing else |
| SoulGuide.Chat.SendMessage | soulcore-legacy-ui/src/components/SoulGuide/SoulGuide.tsx:226-243 | the send handler, including the blank-input guard |
| SoulGuide.Chat.HandleKeyPress | soulcore-legacy-ui/src/components/SoulGuide/SoulGuide.tsx:291-295 | Enter runs the send handler; other keys do nothing |
| SoulGuide.Chat.ThinkingTimerFired | soulcore-legacy-ui/src/components/SoulGuide/SoulGuide.tsx:244-245 | the first timer sets the thinking emotion |
| SoulGuide.Chat.ReplyTimerFired | soulcore-legacy-ui/src/components/SoulGuide/SoulGuide.tsx:247-286 | the second timer appends the reply chosen from the sent text, shows its emotion and stops typing |
| SoulGuideAvatar.SizeDraw | soulcore-legacy-ui/src/components/SoulGuide/SoulGuideAvatar.tsx:121 | a particle's size lies in [1, 4) pixels |
| SoulGuideAvatar.BucketColor | soulcore-legacy-ui/src/components/SoulGuide/SoulGuideAvatar.tsx:124-133 | particle i's colour is bucket i / 5 of the four colours (indices 0-4, 5-9, 10-14, 15-19) |
| SoulGuideAvatar.CountMatchesBuckets | soulcore-legacy-ui/src/components/SoulGuide/SoulGuideAvatar.tsx:124-133 | counting a colour among the first n particles equals counting the indices of its bucket |
| SoulGuideAvatar.BucketCountClosed | soulcore-legacy-ui/src/components/SoulGuide/SoulGuideAvatar.tsx:118-133 | bucket b holds the indices 5b .. 5b+4 |
| SoulGuideAvatar.FivePerColor | soulcore-legacy-ui/src/components/SoulGuide/SoulGuideAvatar.tsx:118-133 | each of the four colours is used by exactly five of the twenty particles |
| SoulGuideAvatar.OrbFor | soulcore-legacy-ui/src/components/SoulGuide/SoulGuideAvatar.tsx:162-368 | only the curious state runs a keyframe sequence, of four frames; every other state pulses the orb to a scale in [0.9, 1.15] over 0.5 to 2 seconds |
| SoulGuideAvatar.PairedStatesShare | soulcore-legacy-ui/src/components/SoulGuide/SoulGuideAvatar.tsx:181-219 | happy/elated, thinking/focusedProblemSolving and competitive/determined share their settings (scale 1.1 / 0.8 s, 1.05 / 1.2 s, 1.15 / 0.5 s) |
| SoulGuideAvatar.DefaultBranch | soulcore-legacy-ui/src/components/SoulGuide/SoulGuideAvatar.tsx:162-367 | exactly speaking, sad, disappointed, acknowledgingProblem, playful and proud take the default branch, which has idle's gradient, scale and duration but animates no particles; every named branch animates them |
| SoulGuideAvatar.Avatar.constructor | soulcore-legacy-ui/src/components/SoulGuide/SoulGuideAvatar.tsx:106-108 | no particles and no running tweens |
| SoulGuideAvatar.Avatar.Mount | soulcore-legacy-ui/src/components/SoulGuide/SoulGuideAvatar.tsx:111-144 | without a container nothing happens; otherwise the container is emptied and exactly twenty particles are created, particle i with bucket colour i |
| SoulGuideAvatar.Avatar.ShowEmotion | soulcore-legacy-ui/src/components/SoulGuide/SoulGuideAvatar.tsx:147-371 | unless an element is missing, previous tweens are replaced by the branch's and the orb takes the branch's colour; the particles themselves are kept |
| CosmicBackground.Rank | soulcore-legacy-ui/src/components/BackgroundEffects/CosmicBackground.tsx:149 | "high" ranks 2, "medium" 1, everything else 0 |
| CosmicBackground.ContainerOpacity | soulcore-legacy-ui/src/components/BackgroundEffects/CosmicBackground.tsx:24 | container opacity lies in [0.4, 0.8] |
| CosmicBackground.OrbCount | soulcore-legacy-ui/src/components/BackgroundEffects/CosmicBackground.tsx:149 | a run creates between 2 and 6 orbs |
| CosmicBackground.OrbBlur | soulcore-legacy-ui/src/components/BackgroundEffects/CosmicBackground.tsx:170 | the orb blur lies in [40, 80] pixels |
| CosmicBackground.OrbBaseSize | soulcore-legacy-ui/src/components/BackgroundEffects/CosmicBackground.tsx:158 | the base orb size lies in [100, 200] |
| CosmicBackground.IntensityTables | soulcore-legacy-ui/src/components/BackgroundEffects/CosmicBackground.tsx:24-170 | count 2/4/6, blur 40/60/80, base size 100/150/200 and opacity 0.4/0.6/0.8 grow linearly with the rank; an unknown intensity behaves as "low" |
| CosmicBackground.Palette | soulcore-legacy-ui/src/components/BackgroundEffects/CosmicBackground.tsx:73-104 | every scheme has four colours; an unknown scheme gives the default palette; each named scheme starts and ends with its accent |
| CosmicBackground.MakeStar | soulcore-legacy-ui/src/components/BackgroundEffects/CosmicBackground.tsx:126-129 | a star's position is in [0, 100)², its size in [0.5, 1.5) and its opacity in [0.2, 1.0) |
| CosmicBackground.MakeOrb | soulcore-legacy-ui/src/components/BackgroundEffects/CosmicBackground.tsx:158-174 | orb i has size in [base, base + 300), position in [0, 100)², colour `colors[i % 4]`, the intensity's blur and opacity 0.4 |
| CosmicBackground.KindCountConcat | soulcore-legacy-ui/src/components/BackgroundEffects/CosmicBackground.tsx:111-192 | counting children of a kind distributes over concatenation |
| CosmicBackground.OrbLayers | soulcore-legacy-ui/src/components/BackgroundEffects/CosmicBackground.tsx:176 | one orb child per orb, in order, and no other kind of child |
| CosmicBackground.Layout | soulcore-legacy-ui/src/components/BackgroundEffects/CosmicBackground.tsx:111-192 | after a run the container holds the star field first (only when this run built it), then one child per orb, and the nebula layer last |
| CosmicBackground.LayoutCounts | soulcore-legacy-ui/src/components/BackgroundEffects/CosmicBackground.tsx:111-192 | a run's container holds exactly one nebula layer, one child per orb, and a star field only when the run built it |
| CosmicBackground.BuildStars | soulcore-legacy-ui/src/components/BackgroundEffects/CosmicBackground.tsx:125-141 | the star loop creates one star per draw, in order, all within the star ranges |
| CosmicBackground.BuildOrbs | soulcore-legacy-ui/src/components/BackgroundEffects/CosmicBackground.tsx:151-178 | the orb loop creates one orb per draw, orb k taking the palette colours in turn (k modulo the palette size) |
| CosmicBackground.Background.constructor | soulcore-legacy-ui/src/components/BackgroundEffects/CosmicBackground.tsx:68-70 | empty container, no orbs, no saved star field |
| CosmicBackground.Background.RunTwice | soulcore-legacy-ui/src/components/BackgroundEffects/CosmicBackground.tsx:107-145 | starting with no saved star field, two runs of the effect leave the field saved but the container without a star-field layer |
| CosmicBackground.Background.RunEffect | soulcore-legacy-ui/src/components/BackgroundEffects/CosmicBackground.tsx:107-206 | with no container or animation off nothing changes; otherwise the container and orb list are rebuilt, the star field is built only if none was saved, and exactly orbCount orbs and one nebula are added |
| CosmicBackground.Background.Cleanup | soulcore-legacy-ui/src/components/BackgroundEffects/CosmicBackground.tsx:209-211 | the orbs stop drifting; the elements stay |
| CosmicBackground.StarFieldOnlyOnFirstRun | soulcore-legacy-ui/src/components/BackgroundEffects/CosmicBackground.tsx:111-145 | a layout given a freshly built star field holds exactly one star-field layer, and a layout given none (what a run passes once a field is saved) holds none |
| ParallaxBackground.MakeStar | soulcore-legacy-ui/src/components/BackgroundEffects/ParallaxBackground.tsx:43-49 | a star has layer in {0, 1, 2}, size in [1, 3), a colour from the seven-colour palette and position in [0, 100)² |
| ParallaxBackground.MakeNebula | soulcore-legacy-ui/src/components/BackgroundEffects/ParallaxBackground.tsx:67-73 | a nebula has layer in {0, 1, 2}, size in [200, 500), a colour from the four-colour palette and position in [0, 100)² |
| ParallaxBackground.OnLayer | soulcore-legacy-ui/src/components/BackgroundEffects/ParallaxBackground.tsx:193 | a layer renders no more bodies than there are |
| ParallaxBackground.OnLayerMembers | soulcore-legacy-ui/src/components/BackgroundEffects/ParallaxBackground.tsx:193 | a layer renders exactly the bodies on it |
| ParallaxBackground.OnLayerHead | soulcore-legacy-ui/src/components/BackgroundEffects/ParallaxBackground.tsx:193 | a layer's share of a list is the head, when the head is on it, followed by the tail's share |
| ParallaxBackground.LayersPartition | soulcore-legacy-ui/src/components/BackgroundEffects/ParallaxBackground.tsx:193-319 | the three layer filters together hold exactly the bodies, as a multiset: each star (and nebula) is rendered once, in one layer |
| ParallaxBackground.LayerSizesAddUp | soulcore-legacy-ui/src/components/BackgroundEffects/ParallaxBackground.tsx:193-319 | the three layers render as many bodies as there are |
| ParallaxBackground.StarScale | soulcore-legacy-ui/src/components/BackgroundEffects/ParallaxBackground.tsx:200-308 | the star size multiplier is 1, 1.2 or 1.5 for layers 0, 1, 2 |
| ParallaxBackground.RenderedStarSize | soulcore-legacy-ui/src/components/BackgroundEffects/ParallaxBackground.tsx:200-309 | a rendered star is between its size and 1.5 times it, and unscaled on the far layer |
| ParallaxBackground.StarScaleIncreasing | soulcore-legacy-ui/src/components/BackgroundEffects/ParallaxBackground.tsx:200-308 | nearer layers draw stars strictly larger |
| ParallaxBackground.StyleOf | soulcore-legacy-ui/src/components/BackgroundEffects/ParallaxBackground.tsx:187-295 | the layer containers sit at depth -30, -20, -10 px with scales 1.3, 1.2, 1.1 and opacity 1, 1, 0.8 |
| ParallaxBackground.NormalizePointer | soulcore-legacy-ui/src/components/BackgroundEffects/ParallaxBackground.tsx:93-94 | a pointer inside the window maps into [-1, 1], the edges to -1 and 1, and exactly the centre to 0 |
| ParallaxBackground.LayerOffset | soulcore-legacy-ui/src/components/BackgroundEffects/ParallaxBackground.tsx:99-101 | with non-negative intensity a layer moves towards the side the pointer is on, and with positive intensity it moves whenever the pointer is off-centre |
| ParallaxBackground.OffsetLaws | soulcore-legacy-ui/src/components/BackgroundEffects/ParallaxBackground.tsx:98-101 | layer k's offset is k+1 times layer 0's, zero when the pointer is centred, and within 10·(k+1)·intensity |
| ParallaxBackground.Parallax.constructor | soulcore-legacy-ui/src/components/BackgroundEffects/ParallaxBackground.tsx:24-25 | no stars and no nebulae |
| ParallaxBackground.Parallax.GenerateStars | soulcore-legacy-ui/src/components/BackgroundEffects/ParallaxBackground.tsx:29-54 | exactly 200 stars are stored, star k from draw k, every one on a layer |
| ParallaxBackground.Parallax.GenerateNebulae | soulcore-legacy-ui/src/components/BackgroundEffects/ParallaxBackground.tsx:56-78 | exactly 5 nebulae are stored, nebula k from draw k, every one on a layer |
| ParallaxBackground.Parallax.HandleMouseMove | soulcore-legacy-ui/src/components/BackgroundEffects/ParallaxBackground.tsx:86-110 | without a container nothing happens; otherwise the three layers, in order, are sent to their depth-scaled offsets |

## Left out

- Rendering and animation: DOM elements, styles, canvas drawing, gsap tweens, Lottie and
  styled-components. Only the values they are given (counts, colours, sizes, scales,
  targets) are modelled.
- Floating point: numbers are exact reals, so rounding in the source is not modelled.
- ParticleField.Field.Tick: the pointer attraction and speed cap (ParticleField.tsx
  lines 208-241) are not part of the tick, because they need `Math.sqrt` and the container's
  bounding box; only the attraction coefficient and the "excited" test on a given distance
  are modelled (`AttractFactor`, `Excited`).
- The pointer tracking of the particle field, its debounce timer, `requestAnimationFrame`
  scheduling and resize handling are event and timer plumbing; the canvas size is a
  parameter of `Tick`.
- SoulGuide.Chat: timer delays (1000 ms, 1500 ms), message ids, timestamps and scrolling
  are not modelled; the timers are explicit transitions whose firing order the caller
  chooses.
- SoulGuide.ToLower: lower-cases ASCII letters only; Unicode case mapping is not modelled.
- SoulGuide.LowerChar: maps only A-Z; `toLowerCase` also lowers non-ASCII capitals (U+0130
  becomes "i̇"), so "Hİ" gets the greeting reply in the source but the fallback in the model.
- SoulGuide.AnswerText: carries no contract; the reply texts are 90 to 150 characters
  long and any property of them exceeds the solver's budget. `Answer` tags stand for them.
- SoulGuide.Welcome: the greeting is a parameter; the `initialMessage` prop's default text
  (SoulGuide.tsx line 197) is not part of the model.
- SoulGuideAvatar.Avatar.ShowEmotion: the per-particle trigonometric positions, random
  offsets and staggering are reduced to the kind of particle animation; the per-particle
  tween kill is modelled as replacing the previous animation.
- CosmicBackground.Background.RunEffect: the random drift of the orbs is reduced to a flag.
- ParallaxBackground: the star twinkle and nebula drift animations started after 100 ms,
  and the listener registration, are left out (random gsap targets).
- ParallaxBackground.NormalizePointer: requires a positive window size; a zero-sized
  window would divide by zero in the source.
- ParallaxBackground.Parallax.HandleMouseMove: requires the same positive window size, for
  the same reason.
- ParticleField.Field.Initialize: takes the particle count as a `nat`, where the source's
  `count` prop is any JavaScript number (default 50, and no call site passes one); a
  fractional or negative count is not modelled.
- Home.tsx, App.tsx, the router, GlowButton.tsx, GlassPanel.tsx, animations.ts and
  GlobalStyles.ts hold layout, routing and styling only and are not part of this model.
