# Skill-match builds, avatars and the candidate UI, modelled in Dafny

This project models the sequential logic of a hackathon recruiting app. A backend matches a candidate's CV skills against a job's required skills. The result is a "build": covered and missing skills, a match score, learning quests and a gap cost in hours. The backend keeps a per-job cache of candidate "avatars" for the recruiter view. A React frontend shows the builds in a draggable carousel and draws each build as a skill tree. It also has a login/register form.

The project has one module per part of the system:

- `Common` (`common.dfy`): helpers for options, results and strings.
  - Whitespace as JavaScript's `trim` and Python's `strip` see it.
  - ASCII lower-casing.
  - Substring search and JavaScript's string `replace`.
- `Carousel` (`carousel.dfy`): the drag / momentum / snap carousel.
  - It is a `class` whose fields are the component's state plus the container's scroll offset.
  - Pointer handlers, momentum ticks and animation frames are its methods.
  - The easing curve, the momentum run, the index formula and the dot rule are functions and lemmas.
- `SkillMatch` (`skill_match.dfy`): `calculate_build` and the input rules of `register`.
  - `calculate_build` is written as a method with two loops, proved against functions that say what it computes.
  - The properties of those functions are proved as lemmas.
- `Avatars` (`avatar_store.dfy`): the `AVATARS` cache as a class.
  - `create_builds`' update loop.
  - `get_avatar_detail`'s nested search, its error answers and its tree nodes.
- `AuthForm` (`auth_form.dfy`): the form page as a class (mode, form data, errors).
  - `validateForm`, the submit gate, `handleInputChange` and `toggleMode`.
  - The unanchored email pattern `\S+@\S+\.\S+` is written as a scan and proved equal to the pattern's meaning.
- `CandidateView` (`candidate_view.dfy`): the candidate page.
  - Stable sort by descending score and the default selection.
  - The match filters and the placeholder cards.
  - The "Strong Fits" counter and the highlighted card.
- `SkillTree` (`skill_tree.dfy`): the skill tree.
  - Merging covered and missing skills.
  - The category fallback chain.
  - The `forEach` that groups skills into branches, as a loop proved against functions.
  - The branch style lookup.

Numbers are exact: offsets, velocities and scores are `real`, counts are `nat`.

Several inputs become explicit parameters of the methods:

- time (`Date.now()` and frame timestamps);
- DOM measurements (`clientWidth`, `scrollWidth`, `offsetLeft`);
- fresh UUIDs;
- the database tables.

## Model

| member | source | states |
|---|---|---|
| Carousel.VisibleCount | frontend/src/components/DraggableCarousel.jsx:20-24 | at least 1; when the width ratio is at least 1/2 it is that ratio rounded to the nearest integer, otherwise 1 |
| Carousel.JsRound | frontend/src/components/DraggableCarousel.jsx:122 | `Math.round`: the result is within [-1/2, 1/2) of the argument |
| Carousel.IndexAt | frontend/src/components/DraggableCarousel.jsx:117-125 | the index is the item whose start is nearest the offset (ties rounded up) |
| Carousel.IndexAtTarget | frontend/src/components/DraggableCarousel.jsx:122-130 | the offset a snap to index k aims at maps back to index k |
| Carousel.IndexAtNonNegative | frontend/src/components/DraggableCarousel.jsx:122 | an offset of 0 or more never yields a negative index |
| Carousel.AtEnd | frontend/src/components/DraggableCarousel.jsx:304-305 | the end test `Math.ceil(scrollLeft + clientWidth) >= scrollWidth`: it holds whenever the view reaches the end, and only when the view is less than one pixel short of it |
| Carousel.DotLit | frontend/src/components/DraggableCarousel.jsx:301-307 | dot `index` is lit iff it lies in [currentIndex, currentIndex + visibleCount), or the track is at its end and index >= totalItems − visibleCount |
| Carousel.LitCountWindow | frontend/src/components/DraggableCarousel.jsx:299-307 | away from the end, the lit dots among the first n are exactly the window [currentIndex, currentIndex + visibleCount) |
| Carousel.LitCountNotAtEnd | frontend/src/components/DraggableCarousel.jsx:299-307 | away from the end, with the window inside the list, exactly visibleCount dots are lit |
| Carousel.LitCountAtEnd | frontend/src/components/DraggableCarousel.jsx:303-307 | at the end of the track every dot from totalItems − visibleCount on is lit, whatever the current index; with fewer items than visible slots, every dot is lit |
| Carousel.EaseInOutCubic | frontend/src/components/DraggableCarousel.jsx:138-142 | `easeInOutCubic`: 4t³ below one half, 1 − (2 − 2t)³/2 from one half on; its properties are the three lemmas below |
| Carousel.EaseEndpoints | frontend/src/components/DraggableCarousel.jsx:138-142 | the curve is 0 at 0, 1/2 at 1/2 (both branches agree there) and 1 at 1 |
| Carousel.EaseMonotone | frontend/src/components/DraggableCarousel.jsx:138-142 | the curve is monotone on all reals |
| Carousel.EaseRange | frontend/src/components/DraggableCarousel.jsx:138-142 | the curve maps [0,1] into [0,1] |
| Carousel.Progress | frontend/src/components/DraggableCarousel.jsx:146-147 | progress is at most 1, not negative once time has passed, and below 1 exactly while less than the 50 ms duration has elapsed |
| Carousel.FrameBetween | frontend/src/components/DraggableCarousel.jsx:148-150 | every frame puts the offset between the snap's start and its target |
| Carousel.FinalFrame | frontend/src/components/DraggableCarousel.jsx:147-150 | the frame at full progress puts the offset exactly on the target |
| Carousel.Coast | frontend/src/components/DraggableCarousel.jsx:38-50 | the end of a momentum run: while \|v\| > 0.5, add v to the offset and multiply v by 0.95, counting ticks; its closed form is proved by the lemmas below |
| Carousel.CoastMeasureDecreases | frontend/src/components/DraggableCarousel.jsx:39-43 | each momentum tick strictly lowers a natural-number measure of the velocity, so a run ends after finitely many ticks |
| Carousel.FrictionShrinks | frontend/src/components/DraggableCarousel.jsx:43 | friction strictly shrinks any non-zero velocity |
| Carousel.CoastStops | frontend/src/components/DraggableCarousel.jsx:38-50 | a momentum run ends with \|v\| <= 0.5 |
| Carousel.CoastDecays | frontend/src/components/DraggableCarousel.jsx:43 | the end velocity is the start velocity with one friction step per tick |
| Carousel.DecayIsPow | frontend/src/components/DraggableCarousel.jsx:43 | n friction steps multiply the velocity by 0.95^n |
| Carousel.CoastOffset | frontend/src/components/DraggableCarousel.jsx:42-43 | the offset moves by 20·(v − v_end) over a run |
| Carousel.CoastClosedForm | frontend/src/components/DraggableCarousel.jsx:38-54 | a momentum run ends with \|v\| <= 0.5, the end velocity is v·0.95^ticks, and the offset has moved by 20·(v − v_end) |
| Carousel.CoastDistanceBound | frontend/src/components/DraggableCarousel.jsx:38-54 | a momentum run travels at most 20·\|v\|, in the direction of v |
| Carousel.DraggableCarousel.constructor | frontend/src/components/DraggableCarousel.jsx:6-15 | every state hook starts at its initial value |
| Carousel.DraggableCarousel.UpdateVisibleCount | frontend/src/components/DraggableCarousel.jsx:17-31 | visibleCount becomes the visible-count formula for the measured width and stays at least 1 |
| Carousel.DraggableCarousel.SetTotalItems | frontend/src/components/DraggableCarousel.jsx:33-35 | totalItems follows the number of children |
| Carousel.DraggableCarousel.PointerDown | frontend/src/components/DraggableCarousel.jsx:56-73 | a drag starts: dragging, the anchor is the current offset, start x and last sample are recorded, velocity is 0 |
| Carousel.DraggableCarousel.PointerMove | frontend/src/components/DraggableCarousel.jsx:75-108 | ignored unless dragging; otherwise offset = anchor − 2·(x − startX), velocity = −dx/dt·16 only when dt > 0, and the last sample is refreshed |
| Carousel.DraggableCarousel.DragEnd | frontend/src/components/DraggableCarousel.jsx:110-115 | the drag ends and the velocity is kept for momentum |
| Carousel.DraggableCarousel.MomentumTick | frontend/src/components/DraggableCarousel.jsx:38-50 | a tick runs iff not dragging and \|v\| > 0.5; it adds v to the offset and multiplies v by 0.95 |
| Carousel.DraggableCarousel.RunMomentum | frontend/src/components/DraggableCarousel.jsx:38-54 | an undisturbed run ticks until \|v\| <= 0.5 and ends where `Coast` says; nothing moves while dragging |
| Carousel.DraggableCarousel.OnScroll | frontend/src/components/DraggableCarousel.jsx:117-125 | while not dragging, the index becomes `IndexAt(offset)`; while dragging it is unchanged |
| Carousel.DraggableCarousel.ScrollToIndex | frontend/src/components/DraggableCarousel.jsx:127-136 | the snap starts at the current offset, targets index·(itemMinWidth+gap) and has no start time yet |
| Carousel.DraggableCarousel.AnimateFrame | frontend/src/components/DraggableCarousel.jsx:144-155 | a frame sets the start time on the first frame, places the offset on the eased curve between start and target, and asks for another frame iff progress < 1; the last frame lands on the target |
| Carousel.DraggableCarousel.ShowsPrev | frontend/src/components/DraggableCarousel.jsx:216 | the previous arrow is rendered iff currentIndex > 0, the same test `scrollPrev` makes |
| Carousel.DraggableCarousel.ShowsNext | frontend/src/components/DraggableCarousel.jsx:253 | the next arrow is rendered iff currentIndex < totalItems − 1, the same test `scrollNext` makes |
| Carousel.DraggableCarousel.ScrollPrev | frontend/src/components/DraggableCarousel.jsx:161-165 | a snap to currentIndex−1 iff the previous arrow is shown (currentIndex > 0), otherwise a no-op |
| Carousel.DraggableCarousel.ScrollNext | frontend/src/components/DraggableCarousel.jsx:167-171 | a snap to currentIndex+1 iff the next arrow is shown (currentIndex < totalItems−1), otherwise a no-op |
| Carousel.DraggableCarousel.IsDotLit | frontend/src/components/DraggableCarousel.jsx:299-307 | the dot rule on the component's state: the dots of the window are always lit, the last visibleCount dots are lit when the view reaches the end, and the window alone decides when the view is a pixel or more short of the end |
| SkillMatch.IndexByLastWins | backend/app.py:485-486 | the lookup dict's keys are exactly the skills' keys, and a key maps to the last skill having it |
| SkillMatch.MatchFor | backend/app.py:501-506 | the matched candidate skill: the one the id lookup dict gives, otherwise the one the lower-cased name dict gives, otherwise none; its meaning is `MatchPriority` |
| SkillMatch.MatchPriority | backend/app.py:501-506 | the match is a candidate skill; an id match wins, and is the last skill with that id; otherwise the lower-cased names agree; no match iff neither id nor lower-cased name matches |
| SkillMatch.BuildFor | backend/app.py:480-557 | what `calculate_build` returns, as a function of the candidate's skills and the job: the covered and missing lists, score, gap cost, quests and coverage counts; the lemmas below give its properties |
| SkillMatch.PartitionLength | backend/app.py:496-524 | the covered and missing lists together have one entry per required skill |
| SkillMatch.Partition | backend/app.py:508-524 | each matched requirement's covered entry is in the covered list, each unmatched one's missing entry in the missing list |
| SkillMatch.CriticalBounds | backend/app.py:497-511 | covered_critical <= total_critical <= number of required skills, and covered_critical <= match_count |
| SkillMatch.MatchScoreInUnitInterval | backend/app.py:526-528 | the match score lies in [0,1] and is 0 for a job without required skills; overallTotal = covered + missing |
| SkillMatch.QuestsFollowMissing | backend/app.py:530-541 | one quest per missing skill, in order, with id `quest_<jobSkillId>` and 10 hours if critical, else 5 |
| SkillMatch.GapCostIsQuestHours | backend/app.py:531-535 | the gap cost is the sum of the quests' hours, between 5 and 10 per missing skill |
| SkillMatch.PartitionRequirements | backend/app.py:489-524 | the requirement loop's two lists and three counters are exactly the covered list, the missing list, the number of matches and the critical counts that the lemmas above describe |
| SkillMatch.PlanQuests | backend/app.py:530-541 | the quest loop builds exactly one quest per missing skill and a gap cost equal to their hours |
| SkillMatch.CalculateBuild | backend/app.py:480-557 | the two loops and the score compute exactly `BuildFor`: the partition, counts, score, quests and coverage above |
| SkillMatch.Register | backend/app.py:131-144 | name and email are stripped and the email lower-cased; "All fields are required" iff a field is blank; the length error iff all are present and the password is 1 to 5 characters long; success iff all checks pass and the email is new |
| Avatars.OthersMembers | backend/app.py:590 | the filter keeps exactly the avatars of other candidates |
| Avatars.OthersIdempotent | backend/app.py:590 | after the filter no avatar of the candidate is left, and filtering again changes nothing |
| Avatars.ReplacedKeepsOthers | backend/app.py:589-601 | after one job's update the list holds exactly one avatar of the candidate, the new one last, and the other candidates' avatars as before |
| Avatars.BuildsOfSelected | backend/app.py:575-583 | a build is answered for exactly the selected jobs; with no job ids, for every job |
| Avatars.AvatarsAfter | backend/app.py:575-601 | the cache after `create_builds`' loop: for each selected job in order, that job's list loses the candidate's avatar and gains the new one; the lemmas below give its properties |
| Avatars.OneAvatarPerJob | backend/app.py:575-601 | after the loop, every selected job's entry holds exactly one avatar of the candidate |
| Avatars.KeysKept | backend/app.py:586-587 | no job key is ever removed from the cache |
| Avatars.OthersKept | backend/app.py:586-601 | under every key, the other candidates' avatars are kept in their order |
| Avatars.UnselectedUnchanged | backend/app.py:575-577 | the list of a job that is not selected is left exactly as it was |
| Avatars.FirstWithIdIsFirst | backend/app.py:650-660 | the search fails iff no avatar has the id; otherwise it finds the first one in dictionary and list order |
| Avatars.TreeNodes | backend/app.py:684-706 | one node per covered skill, then one per missing skill, each in order |
| Avatars.AvatarStore.constructor | backend/app.py:77 | the cache starts empty |
| Avatars.AvatarStore.CreateBuilds | backend/app.py:560-609 | a missing profile is rejected with nothing changed; otherwise the builds of the selected jobs are answered and the cache becomes `AvatarsAfter` with keys in insertion order |
| Avatars.AvatarStore.Put | backend/app.py:586-601 | one job's entry is created if absent, stripped of the candidate's avatar and given the new one; no other entry changes |
| Avatars.AvatarStore.FindAvatar | backend/app.py:650-657 | the nested loop with breaks returns the first (job id, avatar) pair with the id |
| Avatars.AvatarStore.GetAvatarDetail | backend/app.py:644-716 | each of the three 404 answers exactly under its condition; otherwise the avatar's job, the recomputed build's quests and one node per skill |
| AuthForm.WithChangesOneField | frontend/src/components/AuthPage.jsx:18 | setting a field changes that field and no other |
| AuthForm.EmailTestIff | frontend/src/components/AuthPage.jsx:34 | the scan succeeds iff some substring matches `\S+@\S+\.\S+` |
| AuthForm.EmailMatchesUnanchored | frontend/src/components/AuthPage.jsx:34 | the pattern is unanchored: surrounding text never stops a match |
| AuthForm.EmailMatchesNeeds | frontend/src/components/AuthPage.jsx:34 | a matching email has an `@`, a `.`, at least 5 characters and is not blank |
| AuthForm.BlankFailsEmailTest | frontend/src/components/AuthPage.jsx:32-36 | a blank email never passes the pattern |
| AuthForm.NameError | frontend/src/components/AuthPage.jsx:28-30 | a name error iff registering and the trimmed name is empty |
| AuthForm.EmailError | frontend/src/components/AuthPage.jsx:32-36 | no error iff the pattern matches; "Email is required" for a blank email, "Email is invalid" otherwise |
| AuthForm.PasswordError | frontend/src/components/AuthPage.jsx:38-42 | no error iff the password has at least 6 characters; "required" for an empty one, "too short" otherwise |
| AuthForm.ConfirmError | frontend/src/components/AuthPage.jsx:44-46 | a mismatch error iff registering and the two passwords differ |
| AuthForm.FormErrors | frontend/src/components/AuthPage.jsx:25-47 | the `newErrors` object: one optional message per field, each the per-field rule above |
| AuthForm.ValidIff | frontend/src/components/AuthPage.jsx:25-50 | the form is valid iff the email matches, the password has 6 or more characters and, when registering, the name is not blank and the passwords agree; in login mode the name and confirmation never fail |
| AuthForm.SetChangesOneField | frontend/src/components/AuthPage.jsx:21 | setting one field's message keeps the other messages |
| AuthForm.AuthPage.constructor | frontend/src/components/AuthPage.jsx:5-13 | login mode, empty form, no errors |
| AuthForm.AuthPage.ValidateForm | frontend/src/components/AuthPage.jsx:25-50 | the errors become exactly the per-field messages, and the result is true iff there are none |
| AuthForm.AuthPage.HandleSubmit | frontend/src/components/AuthPage.jsx:52-68 | no request unless the form validates; otherwise one to the mode's endpoint with name, email and password |
| AuthForm.AuthPage.HandleInputChange | frontend/src/components/AuthPage.jsx:16-23 | only the named field changes, and only its message is blanked, and only when one is shown |
| AuthForm.AuthPage.ToggleMode | frontend/src/components/AuthPage.jsx:94-103 | the mode flips, the errors are emptied and all four fields reset to "" |
| CandidateView.SortByScore | frontend/src/components/CandidateView.jsx:51-52 | the stable sort by descending match score, as insertion of each build after every build scoring at least as much; the lemmas below prove it sorts and permutes |
| CandidateView.InsertPermutes | frontend/src/components/CandidateView.jsx:52 | inserting adds exactly the one build |
| CandidateView.InsertSorted | frontend/src/components/CandidateView.jsx:52 | inserting into a non-increasing list keeps it non-increasing |
| CandidateView.SortByScoreSorted | frontend/src/components/CandidateView.jsx:52 | the sorted builds have non-increasing match scores |
| CandidateView.SortByScorePermutes | frontend/src/components/CandidateView.jsx:52 | the sorted builds are the response's builds, as a multiset |
| CandidateView.SortByScoreSortsAndPermutes | frontend/src/components/CandidateView.jsx:52 | the sorted builds are a permutation of the response with non-increasing match scores |
| CandidateView.SelectionAfterParse | frontend/src/components/CandidateView.jsx:55-57 | the first sorted build is selected when there is one; otherwise the selection is kept |
| CandidateView.SelectionIsBest | frontend/src/components/CandidateView.jsx:55-57 | with at least one build, the selection is a build of the response with the highest score |
| CandidateView.FilterBuilds | frontend/src/components/CandidateView.jsx:67-71 | `builds.filter` with the high (>= 0.7), medium ([0.4, 0.7)) and keep-all callbacks |
| CandidateView.FilterKeepsExactly | frontend/src/components/CandidateView.jsx:67-71 | the filter keeps exactly the builds its callback accepts, as an order-preserving subsequence |
| CandidateView.OtherFilterKeepsAll | frontend/src/components/CandidateView.jsx:70 | any filter value other than the two named ones keeps every build |
| CandidateView.HighMediumDisjoint | frontend/src/components/CandidateView.jsx:68-69 | no build passes both the high and the medium filter |
| CandidateView.StrongFits | frontend/src/components/CandidateView.jsx:240-242 | the Strong Fits counter: the number of builds scoring at least 0.7 once a CV was parsed, 0 before |
| CandidateView.StrongFitsIsHighFilterLength | frontend/src/components/CandidateView.jsx:240-242 | with a candidate, the Strong Fits count is the length of the high-match filter's result |
| CandidateView.DisplayBuilds | frontend/src/components/CandidateView.jsx:81-91 | without a candidate exactly 5 placeholder cards whatever the filter; with one, exactly the builds the filter keeps |
| CandidateView.IsSelected | frontend/src/components/CandidateView.jsx:255 | a card is highlighted iff its job id is the selected build's, or nothing is selected and it is the first card |
| CandidateView.OnlyFirstCardSelected | frontend/src/components/CandidateView.jsx:55-57 | right after parsing, with one build per job and no filter, a card is highlighted iff it is the first |
| SkillTree.AllSkills | frontend/src/components/RPGSkillTree.jsx:22-25 | the covered skills (status covered, renamed) followed by the missing skills (status missing, no category); length is the sum |
| SkillTree.DisplayNameDropsPrefix | frontend/src/components/RPGSkillTree.jsx:23 | a covered skill's name is its id without a leading "skill_", and the id itself when it has no "skill_" |
| SkillTree.GuessCategory | frontend/src/components/RPGSkillTree.jsx:33-38 | the first matching rule of the chain sql/viz → Data, python/react → Code, comm/lead → Social, finance → Business, else Other |
| SkillTree.FinalCategory | frontend/src/components/RPGSkillTree.jsx:15-19 | an explicit category is never overridden; without one the chain decides |
| SkillTree.CategoriesInOrder | frontend/src/components/RPGSkillTree.jsx:28-42 | the keys of `grouped` in insertion order: each skill's final category, when first seen |
| SkillTree.GroupOf | frontend/src/components/RPGSkillTree.jsx:28-42 | `grouped[c]`: the skills whose final category is c, in list order |
| SkillTree.CategoriesAreFinalCategories | frontend/src/components/RPGSkillTree.jsx:40 | the branch names are distinct and are exactly the skills' final categories |
| SkillTree.GroupOfMembers | frontend/src/components/RPGSkillTree.jsx:40-41 | a branch holds exactly the skills of its category |
| SkillTree.GroupOfAbsent | frontend/src/components/RPGSkillTree.jsx:40 | a category no skill has has an empty branch |
| SkillTree.GroupsPartitionSkills | frontend/src/components/RPGSkillTree.jsx:28-42 | every skill lands in exactly one branch: the branch sizes add up to the number of skills |
| SkillTree.BranchOf | frontend/src/components/RPGSkillTree.jsx:30-38 | the `forEach` body's category choice is exactly `FinalCategory` |
| SkillTree.GroupStep | frontend/src/components/RPGSkillTree.jsx:28-42 | one more skill adds its category to the key order iff it is new, and appends it to that branch only |
| SkillTree.Group | frontend/src/components/RPGSkillTree.jsx:28-42 | the loop's key order is first appearance, its keys are the branch names, and each array is that branch's skills in input order |
| SkillTree.StyleOf | frontend/src/components/RPGSkillTree.jsx:52 | a listed branch gets its own style, any other the "Other" style |
| SkillTree.UnlistedBranchLooksLikeOther | frontend/src/components/RPGSkillTree.jsx:6-12 | "Design", which the backend allows, is drawn like "Other"; every branch the chain can choose is listed |

## Left out

- The momentum run, as the code behaves:
  - The momentum interval's inner `Math.abs(velocity) < 0.5` check (`DraggableCarousel.jsx:45-48`) can never hold. The effect only starts when the velocity it captured exceeds 0.5. So a momentum run stops with the velocity left at its last value (at most 0.5), not at 0. `RunMomentum` and `CoastClosedForm` state this.
  - The run also stops when |v| equals exactly 0.5, because the effect's guard is `> 0.5`.
- Carousel.DraggableCarousel.RunMomentum: each interval callback is one tick with the re-render that restarts the effect. `setInterval`/React scheduling, closure timing and clean-up are not modelled.
- Carousel.DraggableCarousel.AnimateFrame: `requestAnimationFrame` is one method call per frame. Concurrent animations, and momentum and snap writing the offset at once, are not modelled as scheduling. Nothing in the source cancels either, and the model claims no cancellation.
- The browser's clamping of `scrollLeft` to [0, scrollWidth − clientWidth] is not modelled. Offsets are unbounded reals.
- The currentIndex is not clamped to [0, totalItems−1], as in the source.
- Floating point: all arithmetic is exact. `round(match_score, 2)` (`backend/app.py:546`) is not modelled; the score is the exact ratio.
- Strings:
  - JavaScript string lengths count UTF-16 units; here a string is a sequence of characters.
  - Python's `lower()` is modelled on ASCII letters only.
  - `\S` and `trim` use the whitespace sets written out in `Common`.
- Pointer input:
  - Mouse and touch handlers share one model; the touch variant reads `touches[0]`.
  - The cursor style changes are left out.
- `register`:
  - Password hashing (bcrypt), user creation, token generation (JWT) and the database are left out. The existing emails are a set parameter.
  - A field sent as JSON `null` (which would raise in `strip`) is not modelled; an absent field is "".
- Avatars.AvatarStore.CreateBuilds:
  - `uuid.uuid4()` ids are a parameter, one per job.
  - `Job.query.all()` is the job list parameter.
  - An empty profile dict is treated like an absent one.
  - `candidateId` is assumed present.
- Avatars.AvatarStore.GetAvatarDetail:
  - The profile and job tables are maps by id.
  - The empty `edges` list and the JSON reshaping are not modelled.
- `get_avatars` (`backend/app.py:611-642`) repopulates the cache from the database; it is not part of this model.
- AuthForm.AuthPage.HandleSubmit:
  - The `fetch`, the `submit` error key, `localStorage` and the `onLogin` callback are I/O and are left out.
  - `showPassword` and `loading` are presentation state.
- CandidateView: the fetch calls, `alert` and the candidate placeholder are left out. The placeholder builds have no quests key; they are modelled with an empty quest list.
- SkillTree.Group:
  - JavaScript objects list integer-like keys first; category names are assumed not to be integer-like.
  - Names of `Object.prototype` members (such as `constructor`) are assumed not to occur as categories.
- PDF extraction, PII scrubbing, the language-model call in `analyze_cv`, Flask request handling and `seed_jobs.py` are not part of this model.
