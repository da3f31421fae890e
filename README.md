# Portfolio site rules, modelled in Dafny

This project models the rules that sit under the markup of a Next.js portfolio site
and proves properties of them. It covers:

- **Contact form.** The server `POST` handler for `/api/contact` checks for missing fields,
  then applies the hand-written e-mail shape regex, then answers 200, 400 or 500. There are
  two client contact pages:
  - the portfolio page, whose client-side validation is stricter than the handler's. Its
    submit sequence updates `isSubmitting`, `submitStatus`, `errors` and `formData`;
  - the simple page, which has no client validation.

  A `fetch` is an input datatype: it threw, or a response arrived with an `ok` flag and a
  body that parsed (with an optional `error`) or did not.
- **Debug logger.**
  - A level filter.
  - A message layout.
  - A log buffer capped at 100 entries that keeps the newest.
  - A configuration merge.
- **Immersive mode.** This is a seven-zone machine whose portals are fixed by the
  `renderCurrentZone` switch. The contact portal is locked until three skills are collected.
  Both component files carry the same table. Each is proved equal to one shared table, and
  contact is proved unreachable while `collectedSkills` stays empty.
- **Scroll scenes.** Scroll progress maps to a scene from 1 to 4, and exactly one scene and
  one indicator dot are shown.
- **Performance monitor.**
  - The score bands and their colours and texts.
  - The observer callbacks for FCP, LCP, FID, CLS and TTFB, with the CLS running sum.
- **SEO.**
  - `generateMetaTags`, with its `||` defaults: the empty string counts as absent.
  - The project, contact and resume configurations.
  - The `<head>` component's `fullTitle` and `fullImage` rules.
- **Skills matrix.** The constant skills and categories, the category filter and the
  selected button.
- **Game world.**
  - The `totalMetrics` sums, written with `replace` and `parseInt`. `parseInt` reads only
    the leading digits, so '2.5K+' counts as 2.
  - The toggle of the selected project, the hover state and the metrics switch.
- **Accessibility provider.** Three settings, the effect that writes them to the document
  element as space-separated class names, and the `useAccessibility` guard.

Each React component that holds state is a class whose fields are its `useState` values,
and every `setX` call is an assignment. Each method's postcondition ties its new state to a
pure function of the old state, and the lemmas prove properties of those functions.
JavaScript semantics are written out where they matter:

- truthiness, where `''` is falsy;
- `String.prototype.trim` with its white-space set;
- `replace` with a string pattern, which replaces only the first occurrence;
- `parseInt`, which reads leading digits and gives `NaN` (here `None`) when there are none;
- `join`;
- default parameters, which replace only `undefined`, so a prop that is absent is `None`.

## Model

| member | source | states |
|---|---|---|
| Base.TrimStartSplits | portfolio/src/app/contact/page.tsx:24 | The input is white space followed by the result, and the result is empty or starts with a character that is not white space. |
| Base.TrimEndSplits | portfolio/src/app/contact/page.tsx:24 | The input is the result followed by white space only, and the result is empty or ends with a character that is not white space: all trailing white space is removed. |
| Base.TrimEmptyIff | portfolio/src/app/contact/page.tsx:24 | `trim()` is empty (falsy) exactly when every character is white space. |
| Base.ContainsInParts | portfolio/src/utils/seo.ts:18 | A substring of either part of a concatenation is a substring of the whole. |
| Base.StartsWithExtended | portfolio/src/components/SEOHead.tsx:21 | A prefix stays a prefix when text is appended. |
| Base.JoinEmptyIff | portfolio/src/utils/seo.ts:22 | With a non-empty separator, a join is empty exactly for no elements or a single empty element. |
| EmailPattern.MatchesIffAddressShape | src/app/api/contact/route.ts:12-13 | The regex `^[^\s@]+@[^\s@]+\.[^\s@]+$` matches exactly the texts made of a local part, '@', and a domain with a '.' that has non-empty runs on both sides. No run holds white space or '@'. |
| EmailPattern.MatchedAddressShape | src/app/api/contact/route.ts:12-13 | Every matching address has exactly one '@', no white space and at least 5 characters. |
| EmailPattern.WhiteSpaceNeverMatches | src/app/api/contact/route.ts:12-13 | A text with a white-space character anywhere never matches. |
| EmailPattern.RunHasNoAt | src/app/api/contact/route.ts:12 | A run of non-space, non-'@' characters holds no '@'. |
| ContactRoute.Post | src/app/api/contact/route.ts:3-60 | The status is the default 200 exactly when the body is JSON, email and message are non-empty and the email matches; that is exactly when the payload is the acknowledgement; every other status is 400 or 500. |
| ContactRoute.MissingFieldsRejectedFirst | src/app/api/contact/route.ts:7-15 | A missing or empty email or message gets 400 'Missing required fields', never 'Invalid email format'. |
| ContactRoute.FormatCheck | src/app/api/contact/route.ts:12-15 | With both fields present, a non-matching email gets 400 'Invalid email format' and a matching one gets the acknowledgement with status 200. |
| ContactRoute.AcceptedEmailShape | src/app/api/contact/route.ts:7-15 | An accepted request carries an email with exactly one '@', no white space and length at least 5. |
| ContactRoute.BlankMessageAccepted | src/app/api/contact/route.ts:7 | For every matching e-mail, any non-empty message of white space only gets the 200 acknowledgement: the message is neither trimmed nor length-checked. |
| ContactRoute.NameIgnored | src/app/api/contact/route.ts:5-15 | The name never changes the response. |
| ContactRoute.UnreadableBodyFails | src/app/api/contact/route.ts:54-58 | A body that is not JSON gets 500 with the generic send-failure error and no success field. |
| ContactRoute.Deliver | src/app/api/contact/route.ts:49-58 | The browser sees `ok` exactly for a 2xx status, and an `error` field exactly for a failure payload. |
| PortfolioContactPage.ValidationShape | portfolio/src/app/contact/page.tsx:21-44 | The error map has keys only from name, email and message, and each field has one entry exactly when its rule fails, holding that rule's message. The map is empty exactly when the form is accepted. |
| PortfolioContactPage.NameRule | portfolio/src/app/contact/page.tsx:24-28 | A blank name gives 'Name is required'. A trimmed length of 1 gives the too-short message. A trimmed length of 2 or more passes. |
| PortfolioContactPage.MessageRule | portfolio/src/app/contact/page.tsx:36-40 | A blank message gives 'Message is required'. A trimmed length from 1 to 9 gives the too-short message. A trimmed length of 10 or more passes. |
| PortfolioContactPage.EmailCheckedUntrimmed | portfolio/src/app/contact/page.tsx:30-34 | The regex is applied to the untrimmed email, so every non-blank email with a white-space character anywhere, a leading or trailing space included, gives the invalid-address message. |
| PortfolioContactPage.ClientStrongerThanHandler | portfolio/src/app/contact/page.tsx:24-39 | Every form the page accepts is accepted by the handler. |
| PortfolioContactPage.HandlerWeakerThanClient | portfolio/src/app/contact/page.tsx:24-39 | A form the handler accepts can still be refused by the page, so the page's rule is strictly stronger. |
| PortfolioContactPage.UpdateOnlyNamedField | portfolio/src/app/contact/page.tsx:94-100 | A change sets the named field and leaves the other six as they were. |
| PortfolioContactPage.InvalidFormUnchanged | portfolio/src/app/contact/page.tsx:49-51 | An invalid form sends nothing. Only `errors` changes, to the non-empty validation map. |
| PortfolioContactPage.OkResetsForm | portfolio/src/app/contact/page.tsx:66-78 | An OK response with a JSON body gives 'success', all seven fields reset to '', no errors, and not submitting. |
| PortfolioContactPage.NotOkKeepsForm | portfolio/src/app/contact/page.tsx:55 | A non-OK response gives 'error' and keeps the form. `errors` is `{ submit: data.error }` when the error is truthy, otherwise the `{}` it was cleared to (lines 79-84). |
| PortfolioContactPage.FailureReportsNetworkError | portfolio/src/app/contact/page.tsx:85-88 | A thrown fetch or an unreadable body gives 'error', keeps the form, and sets the network-error message. |
| PortfolioContactPage.SubmittingEndsFalse | portfolio/src/app/contact/page.tsx:89-91 | `isSubmitting` is false after every submit that sent a request. |
| PortfolioContactPage.ValidFormReachesSuccess | portfolio/src/app/contact/page.tsx:46-92 | A form the page accepts, answered by the real handler, ends in 'success' with an empty form. |
| PortfolioContactPage.ContactPage.constructor | portfolio/src/app/contact/page.tsx:8-19 | The initial state is seven empty fields, not submitting, 'idle', and no errors. |
| PortfolioContactPage.ContactPage.ValidateForm | portfolio/src/app/contact/page.tsx:21-44 | The error map is replaced by the validation map, and the result is true exactly when the form is accepted. |
| PortfolioContactPage.ContactPage.HandleSubmit | portfolio/src/app/contact/page.tsx:46-92 | The new state is the submit function of the old state and the fetch outcome. The form is sent exactly when it is accepted. |
| PortfolioContactPage.ContactPage.HandleChange | portfolio/src/app/contact/page.tsx:94-100 | The form becomes the old form with the named field replaced. |
| SimpleContactPage.StartMarksBusy | src/app/contact/page.tsx:17-18 | Starting a submit sets `isSubmitting` and the 'idle' status, and keeps the data. |
| SimpleContactPage.SubmitOutcome | src/app/contact/page.tsx:29-42 | The result is 'success' exactly for an OK response with a JSON body, and then the form is empty. Any other outcome is 'error' and keeps the form, including an OK response whose body is not JSON. `isSubmitting` always ends false. |
| SimpleContactPage.RejectedFormKeepsData | src/app/contact/page.tsx:15-27 | With no client validation, a form the handler rejects is still sent. The page shows 'error' and keeps the form. |
| SimpleContactPage.UpdateOnlyNamedField | src/app/contact/page.tsx:45-50 | A change sets the named field and leaves the others. |
| SimpleContactPage.ContactPage.constructor | src/app/contact/page.tsx:7-13 | Three empty fields, not submitting, and 'idle'. |
| SimpleContactPage.ContactPage.HandleSubmit | src/app/contact/page.tsx:15-43 | The form is sent as it is, and the new state is the submit function of the old state and the outcome. |
| SimpleContactPage.ContactPage.HandleChange | src/app/contact/page.tsx:45-50 | The form becomes the old form with the named field replaced. |
| DebugLog.MergeOverridesSupplied | portfolio/src/utils/debug.ts:118-120 | Each of the six fields takes the supplied value when supplied and keeps the old one when absent. An empty update changes nothing. The result is independent of the old configuration exactly when every field is supplied. |
| DebugLog.ShouldLogFilter | portfolio/src/utils/debug.ts:27-35 | A disabled logger passes nothing. An enabled one always passes 'error' and its own level. A level that passes lets every less verbose level pass too. At 'debug' everything passes. |
| DebugLog.DefaultConfigNeverStores | portfolio/src/utils/debug.ts:10-17 | The default configuration passes every level exactly in development, and never stores, so the buffer stays empty. |
| DebugLog.Newest | portfolio/src/utils/debug.ts:62-66 | The retained part of a history has at most 100 entries. |
| DebugLog.RetainBounds | portfolio/src/utils/debug.ts:59-66 | Storing an entry appends it last. Below 100 nothing is dropped. At 100 the oldest is dropped. The buffer never exceeds 100. |
| DebugLog.RetainKeepsNewest | portfolio/src/utils/debug.ts:62-66 | Push-then-slice on the newest 100 of a history is the newest 100 of the extended history. |
| DebugLog.FormattedIsUnique | portfolio/src/utils/debug.ts:37-53 | The layout fixes the text, which always ends with a space and the message. |
| DebugLog.FormattedLayout | portfolio/src/utils/debug.ts:37-53 | The optional timestamp, '[LEVEL]', the optional ' [component]', then ' ' and the message form a text with the layout. |
| DebugLog.DebugLogger.constructor | portfolio/src/utils/debug.ts:23-25 | The logger keeps the given configuration and an empty buffer. |
| DebugLog.DebugLogger.FormatMessage | portfolio/src/utils/debug.ts:37-53 | The accumulated text has the layout. |
| DebugLog.DebugLogger.Log | portfolio/src/utils/debug.ts:55-88 | An entry stamped with the first clock reading is stored exactly when it passes the filter and storage is on: it is appended to the history and the buffer is the capped push; otherwise neither changes. A line is printed exactly when it passes and console output is on, on the level's channel and with the layout, stamped with the second clock reading. The buffer stays the newest 100 of the history. |
| DebugLog.DebugLogger.GetLogs | portfolio/src/utils/debug.ts:106-108 | The result is the buffer, of at most 100 entries. |
| DebugLog.DebugLogger.ClearLogs | portfolio/src/utils/debug.ts:110-112 | The buffer is emptied and the configuration is untouched. |
| DebugLog.DebugLogger.UpdateConfig | portfolio/src/utils/debug.ts:118-120 | The configuration becomes the merge of the old one and the update. |
| Zones.PortalsFollowJourney | portfolio/src/components/ImmersiveModeAdvanced.tsx:533-791 | A zone has a portal to another exactly when the career path leads there: intro→{learning, wipro}, learning→{intro}, wipro→{cvs, intro}, cvs→{wells, intro}, wells→{projects, intro}, projects→{contact, intro}, contact→{intro}. |
| Zones.BackToIntro | portfolio/src/components/ImmersiveModeAdvanced.tsx:576 | Every zone other than intro has an unlocked portal back to intro (also lines 618, 660, 702, 750 and 790). |
| Zones.OnlyContactPortalLocks | portfolio/src/components/ImmersiveModeAdvanced.tsx:741-745 | Only the projects→contact portal can be locked, and it is unlocked exactly when three or more skills are collected. |
| Zones.LockedPortalInert | portfolio/src/components/ImmersiveModeAdvanced.tsx:429-456 | A portal reads 'LOCKED' exactly when it is locked, and a click on a locked portal changes nothing. |
| Zones.ContactPortalGuard | portfolio/src/components/ImmersiveModeAdvanced.tsx:499-503 | The contact portal opens the form exactly when three skills are collected, never changes the zone, and otherwise changes nothing. |
| Zones.ContactUnreachable | portfolio/src/components/ImmersiveModeAdvanced.tsx:469-470 | With fewer than three skills, no sequence of clicks that starts outside contact with the form closed reaches contact or opens the form. |
| Zones.ContactReachableWithSkills | portfolio/src/components/ImmersiveModeAdvanced.tsx:783 | With three skills, a path of clicks from intro reaches contact with the form open, and 'Close Portal' closes it (lines 891-893). |
| Zones.IndexOf | portfolio/src/components/ImmersiveModeAdvanced.tsx:852 | `indexOf` gives the first position of the element, or -1 exactly when it is absent. |
| Zones.ProgressInRange | portfolio/src/components/ImmersiveModeAdvanced.tsx:852 | Progress is in 1..7, it is the zone's position in the list plus 1, and distinct zones show distinct progress. |
| ImmersiveModeAdvanced.SameTableAsShared | portfolio/src/components/ImmersiveModeAdvanced.tsx:505-799 | This file's portal table is the shared one. |
| ImmersiveModeAdvanced.ImmersiveScene.constructor | portfolio/src/components/ImmersiveModeAdvanced.tsx:469-470 | No skills are collected and the form is closed. |
| ImmersiveModeAdvanced.ImmersiveScene.HandleContactPortal | portfolio/src/components/ImmersiveModeAdvanced.tsx:499-503 | The scene becomes the guarded result of the contact portal. |
| ImmersiveModeAdvanced.ImmersiveScene.ClickPortal | portfolio/src/components/ImmersiveModeAdvanced.tsx:429-439 | The scene becomes the step of the machine for a click on that portal. |
| ImmersiveModeAdvanced.ImmersiveScene.ClosePortal | portfolio/src/components/ImmersiveModeAdvanced.tsx:891-893 | The scene becomes the step for 'Close Portal': the form closes. |
| ImmersiveModeAdvanced.ImmersiveScene.ProgressShown | portfolio/src/components/ImmersiveModeAdvanced.tsx:852 | The number shown is the zone's progress, in 1..7, and names the current zone. |
| ImmersiveMode.SameTableAsShared | portfolio/src/components/ImmersiveMode.tsx:565-811 | This file's portal table is the shared one. |
| ImmersiveMode.ImmersiveScene.constructor | portfolio/src/components/ImmersiveMode.tsx:503-504 | No skills are collected and the form is closed. |
| ImmersiveMode.ImmersiveScene.HandleContactPortal | portfolio/src/components/ImmersiveMode.tsx:533-537 | The scene becomes the guarded result of the contact portal. |
| ImmersiveMode.ImmersiveScene.ClickPortal | portfolio/src/components/ImmersiveMode.tsx:463-472 | The scene becomes the step of the machine for a click on that portal. |
| ImmersiveMode.ImmersiveScene.ClosePortal | portfolio/src/components/ImmersiveMode.tsx:898 | The scene becomes the step for 'Close Portal'. |
| ImmersiveMode.ImmersiveScene.ProgressShown | portfolio/src/components/ImmersiveMode.tsx:864 | The number shown is the zone's progress, in 1..7, and names the current zone. |
| ScrollScene.ReachedMonotone | portfolio/src/components/ScrollBased3D.tsx:365-370 | More progress never passes fewer thresholds. |
| ScrollScene.SceneCountsBoundaries | portfolio/src/components/ScrollBased3D.tsx:365-370 | The scene is 1 plus the number of thresholds 0.25, 0.5 and 0.75 reached. |
| ScrollScene.SceneRangeAndOrder | portfolio/src/components/ScrollBased3D.tsx:365-370 | The scene is always in 1..4, even outside [0, 1], and is monotone in progress. |
| ScrollScene.SceneIntervals | portfolio/src/components/ScrollBased3D.tsx:366-368 | Below 0.25 is scene 1, [0.25, 0.5) is 2, [0.5, 0.75) is 3, and the rest is 4. The boundaries go to the higher scene. |
| ScrollScene.Filtered | portfolio/src/components/ScrollBased3D.tsx:393-396 | A scene is rendered exactly when it is one of the four and equals the current one. |
| ScrollScene.ExactlyOneSceneShown | portfolio/src/components/ScrollBased3D.tsx:393-421 | Exactly one scene is rendered, and exactly one indicator dot is lit: the current scene's. |
| PerformanceMonitor.ColorAndTextNameOneBand | portfolio/src/components/PerformanceMonitor.tsx:86-98 | A value is in a band (N/A for null, then ≤ good, ≤ poor, > poor) exactly when the text names that band, and exactly when the colour does. |
| PerformanceMonitor.SameColorIffSameText | portfolio/src/components/PerformanceMonitor.tsx:86-98 | Two values get the same colour exactly when they get the same text. |
| PerformanceMonitor.BandOf | portfolio/src/components/PerformanceMonitor.tsx:86-98 | Every value lies in some band. |
| PerformanceMonitor.WorseReadingNeverScoresBetter | portfolio/src/components/PerformanceMonitor.tsx:86-98 | When good ≤ poor, a larger value never gets a better band. |
| PerformanceMonitor.Shown | portfolio/src/components/PerformanceMonitor.tsx:107-137 | A reading is displayed as 'N/A' exactly when it is null or 0, and otherwise as its value. |
| PerformanceMonitor.ZeroFcpShowsNotAvailableButGood | portfolio/src/components/PerformanceMonitor.tsx:107-108 | An FCP of 0 is displayed as 'N/A' yet coloured green and scored 'Good'. |
| PerformanceMonitor.FindFcp | portfolio/src/components/PerformanceMonitor.tsx:28-31 | The result is the first entry named 'first-contentful-paint', or none when there is no such entry. |
| PerformanceMonitor.UnmeasurableBatchIgnored | portfolio/src/components/PerformanceMonitor.tsx:50-52 | A batch of first-input entries with no non-zero `processingStart` and `startTime` keeps the old FID. |
| PerformanceMonitor.LatestFidIsLastMeasurable | portfolio/src/components/PerformanceMonitor.tsx:46-55 | The FID is the delay of the last measurable entry of the batch. |
| PerformanceMonitor.ClsSumAppend | portfolio/src/components/PerformanceMonitor.tsx:59-69 | The CLS sum of two batches is the sum of their sums. |
| PerformanceMonitor.RecentInputIgnored | portfolio/src/components/PerformanceMonitor.tsx:63 | An entry with recent input adds nothing to CLS. |
| PerformanceMonitor.ClsSumNonNegative | portfolio/src/components/PerformanceMonitor.tsx:59-69 | Non-negative shift values give a non-negative CLS. |
| PerformanceMonitor.Monitor.constructor | portfolio/src/components/PerformanceMonitor.tsx:14-20 | Every metric starts null and the CLS accumulator starts at 0. |
| PerformanceMonitor.Monitor.OnPaint | portfolio/src/components/PerformanceMonitor.tsx:26-32 | FCP becomes the start time of the first FCP entry, or is left alone when there is none. |
| PerformanceMonitor.Monitor.OnLargestPaint | portfolio/src/components/PerformanceMonitor.tsx:36-42 | LCP becomes the last entry's start time, and an empty batch changes nothing. |
| PerformanceMonitor.Monitor.OnFirstInput | portfolio/src/components/PerformanceMonitor.tsx:46-55 | Only FID changes, to the running result of the batch. |
| PerformanceMonitor.Monitor.OnLayoutShift | portfolio/src/components/PerformanceMonitor.tsx:59-69 | The accumulator grows by the batch's CLS sum. CLS is set to it exactly when some entry without recent input was seen. |
| PerformanceMonitor.Monitor.OnNavigation | portfolio/src/components/PerformanceMonitor.tsx:73-76 | TTFB becomes `responseStart - requestStart` of the navigation entry, when there is one. |
| Seo.TitleRule | portfolio/src/utils/seo.ts:18 | A title with '—' is kept, and any other gets ' — iOS Developer'. The result always has '—', so the rule is idempotent. |
| Seo.KeywordFallback | portfolio/src/utils/seo.ts:22 | Supplied keywords are joined with ', ' unless they join to '' (absent, empty, or one empty keyword). Then the default keywords are used. The line is never empty. |
| Seo.CardsAgree | portfolio/src/utils/seo.ts:24-49 | Open Graph and Twitter reuse the title, description and image: one image, the same one, with the title as its alt text. |
| Seo.NothingLeftBlank | portfolio/src/utils/seo.ts:17-62 | Every generated field is filled and the title has '—'. A non-empty description, url or image supplied is used as it is. |
| Seo.EmptyMeansDefault | portfolio/src/utils/seo.ts:19-21 | An empty description, url or image gives the same tags as the default. An absent url or image gives the same tags as an empty one. |
| Seo.TypeDefaultsToWebsite | portfolio/src/utils/seo.ts:42 | The Open Graph type is 'website' exactly when none or 'website' is configured. |
| Seo.DefaultSeoTags | portfolio/src/utils/seo.ts:10-15 | The default configuration keeps its title, gets the default url and is a website. |
| Seo.ProjectTags | portfolio/src/utils/seo.ts:64-73 | A project page's title is the title plus ' — iOS App', left alone by the rule. Its keywords are the defaults, the technologies, then the title. Its type is 'article'. |
| Seo.ContactTags | portfolio/src/utils/seo.ts:75-79 | The contact page keeps its title, uses the default keywords extended with its own, and is a website. |
| Seo.ResumeTags | portfolio/src/utils/seo.ts:81-85 | The resume page keeps its title, uses the default keywords extended with its own, and is a website. |
| SeoHead.FullTitleRule | portfolio/src/components/SEOHead.tsx:20 | A title naming 'ExtMac' is kept, and any other gets ' \| ExtMac'. The result always names the brand, so the rule is idempotent. |
| SeoHead.FullImageRule | portfolio/src/components/SEOHead.tsx:21 | An image starting with 'http' is kept, and any other is put under 'https://extmac.dev'. The result starts with 'http', so the rule is idempotent. |
| SeoHead.TagsAgree | portfolio/src/components/SEOHead.tsx:26-55 | `<title>`, og:title and twitter:title are the full title. Both images are the full image. The canonical link is og:url, the url. The keywords are joined with ', '. |
| SeoHead.DefaultHeadTitle | portfolio/src/components/SEOHead.tsx:12-20 | With no props the default title is kept, because it names the brand, and the canonical link is the default url. |
| SeoHead.DefaultHeadImage | portfolio/src/components/SEOHead.tsx:14-21 | With no props the image is 'https://extmac.dev/og-image.jpg'. |
| SeoHead.EmptyTitleNotDefaulted | portfolio/src/components/SEOHead.tsx:12-20 | An empty title passed in is not defaulted and becomes ' \| ExtMac'. |
| SkillsMatrix.FilterKeepsCategoryInOrder | portfolio/src/components/SkillsMatrix.tsx:80 | The filter keeps exactly the skills of the category, piecewise, and so in their order. |
| SkillsMatrix.AllShowsEverything | portfolio/src/components/SkillsMatrix.tsx:76-79 | 'All', the initial choice, shows all 8 skills in order. |
| SkillsMatrix.EachCategoryHasOneSkill | portfolio/src/components/SkillsMatrix.tsx:14-80 | Each category other than 'All' shows exactly one skill, the one at the matching position. |
| SkillsMatrix.SkillsFollowCategories | portfolio/src/components/SkillsMatrix.tsx:14-73 | The skills are listed in the order of the categories after 'All', one per category. |
| SkillsMatrix.CategoriesDistinct | portfolio/src/components/SkillsMatrix.tsx:73 | No category is listed twice. |
| SkillsMatrix.OnlyMatchKept | portfolio/src/components/SkillsMatrix.tsx:80 | A list in which one position has the category filters to that one element. |
| SkillsMatrix.NoneKept | portfolio/src/components/SkillsMatrix.tsx:80 | A list without the category filters to nothing. |
| SkillsMatrix.ExactlyOneButtonSelected | portfolio/src/components/SkillsMatrix.tsx:117-121 | Exactly one button is styled as selected: the selected category's. |
| SkillsMatrix.LevelsArePercentages | portfolio/src/components/SkillsMatrix.tsx:14-71 | Every level is in 0..100, so it can be a bar width (line 172). |
| GameWorld.LeadingDigits | portfolio/src/components/3d/GameWorld.tsx:131 | The result is the longest prefix of digits: all digits, and the next character is not one. |
| GameWorld.ParseIntStopsAtNonDigit | portfolio/src/components/3d/GameWorld.tsx:134 | `parseInt` of digits followed by a non-digit reads the digits only, so '2.5' is 2. |
| GameWorld.ParseIntReadsDecimal | portfolio/src/components/3d/GameWorld.tsx:131 | `parseInt` reads back the decimal text of every natural number. |
| GameWorld.ParseIntWithoutDigits | portfolio/src/components/3d/GameWorld.tsx:131 | Text without a sign or digit at the front is `NaN`. |
| GameWorld.ReplaceFirstAt | portfolio/src/components/3d/GameWorld.tsx:131 | `replace` with a string pattern replaces only the first occurrence. |
| GameWorld.ReplaceFirstStep | portfolio/src/components/3d/GameWorld.tsx:131 | Where the text does not start with the pattern, `replace` keeps its first character. |
| GameWorld.ReplaceAbsent | portfolio/src/components/3d/GameWorld.tsx:131 | Text without the pattern is left as it is. |
| GameWorld.ReadsThousands | portfolio/src/components/3d/GameWorld.tsx:131-134 | Digits, an optional non-digit fraction and 'K+' read as the digits' value, for both downloads and users. |
| GameWorld.ReadsDollarThousands | portfolio/src/components/3d/GameWorld.tsx:133 | '$', digits and 'K+' read as the digits' value. |
| GameWorld.Downloads15 | portfolio/src/components/3d/GameWorld.tsx:72 | '15K+' reads as 15. |
| GameWorld.Downloads8 | portfolio/src/components/3d/GameWorld.tsx:93 | '8K+' reads as 8. |
| GameWorld.Downloads12 | portfolio/src/components/3d/GameWorld.tsx:114 | '12K+' reads as 12. |
| GameWorld.Revenue50 | portfolio/src/components/3d/GameWorld.tsx:75 | '$50K+' reads as 50. |
| GameWorld.Revenue25 | portfolio/src/components/3d/GameWorld.tsx:96 | '$25K+' reads as 25. |
| GameWorld.Revenue35 | portfolio/src/components/3d/GameWorld.tsx:117 | '$35K+' reads as 35. |
| GameWorld.Users25 | portfolio/src/components/3d/GameWorld.tsx:76 | '2.5K+' reads as 2. |
| GameWorld.Users18 | portfolio/src/components/3d/GameWorld.tsx:97 | '1.8K+' reads as 1. |
| GameWorld.Users32 | portfolio/src/components/3d/GameWorld.tsx:118 | '3.2K+' reads as 3. |
| GameWorld.TotalOfThree | portfolio/src/components/3d/GameWorld.tsx:131-134 | The `reduce` sum over three projects is the sum of the three readings when none of them is `NaN`. |
| GameWorld.DownloadsTotal | portfolio/src/components/3d/GameWorld.tsx:131 | The downloads total is 15 + 8 + 12 = 35. |
| GameWorld.RevenueTotal | portfolio/src/components/3d/GameWorld.tsx:133 | The revenue total is 50 + 25 + 35 = 110. |
| GameWorld.MissingCountsZero | portfolio/src/components/3d/GameWorld.tsx:133-134 | The fallback to '0': a missing revenue or users figure, or one that is empty once stripped, reads as 0 rather than `NaN`. |
| GameWorld.UsersTotal | portfolio/src/components/3d/GameWorld.tsx:134 | The users total is 2 + 1 + 3 = 6. |
| GameWorld.ToggleSelection | portfolio/src/components/3d/GameWorld.tsx:187 | After a click the project is selected exactly when it was not before. Two clicks restore a selection that was nothing or that project, and end with nothing selected exactly when it was not that project. |
| GameWorld.AchievementsAndBadges | portfolio/src/components/3d/GameWorld.tsx:282 | Achievements are listed only for the selected project, so at most one project lists them. Each project floats at most two badges, its first achievements (line 324). |
| GameWorld.World.constructor | portfolio/src/components/3d/GameWorld.tsx:33-36 | Nothing is hovered or selected, and the metrics are hidden. |
| GameWorld.World.Click | portfolio/src/components/3d/GameWorld.tsx:185-189 | The selection toggles, and the project's own id is reported whatever the toggle gives. |
| GameWorld.World.PointerOver | portfolio/src/components/3d/GameWorld.tsx:190-192 | `hovered` becomes the project's id. |
| GameWorld.World.PointerOut | portfolio/src/components/3d/GameWorld.tsx:194-196 | `hovered` becomes null. |
| GameWorld.World.ToggleMetrics | portfolio/src/components/3d/GameWorld.tsx:171 | `showMetrics` flips. |
| Accessibility.TokensFollowSettings | portfolio/src/components/AccessibilityProvider.tsx:36-39 | One to three tokens. 'reduce-motion' is present exactly when motion is reduced, and 'high-contrast' exactly when contrast is high. The size class is last. The tokens follow the order of the pushes, and none has a space. |
| Accessibility.SplitJoin | portfolio/src/components/AccessibilityProvider.tsx:41 | Splitting a space join of tokens without spaces gives the tokens back. |
| Accessibility.JoinSnoc | portfolio/src/components/AccessibilityProvider.tsx:41 | Joining one more token appends the separator and the token. |
| Accessibility.ClassNameFollowsSettings | portfolio/src/components/AccessibilityProvider.tsx:36-41 | The class list read from the class name is exactly the tokens pushed: it holds 'reduce-motion' exactly when motion is reduced and 'high-contrast' exactly when contrast is high. The class name ends with 'font-size-' and the size. |
| Accessibility.InitialClassName | portfolio/src/components/AccessibilityProvider.tsx:17-19 | The initial settings give the class name 'font-size-medium'. |
| Accessibility.UseAccessibility | portfolio/src/components/AccessibilityProvider.tsx:60-66 | Outside a provider it throws, and only there, with 'useAccessibility must be used within an AccessibilityProvider'. Inside one it gives the provider's value. |
| Accessibility.Provider.constructor | portfolio/src/components/AccessibilityProvider.tsx:17-19 | No reduced motion, no high contrast, size 'medium', and the document shows them. |
| Accessibility.Provider.ApplyClasses | portfolio/src/components/AccessibilityProvider.tsx:34-42 | The pushed-and-joined class name shows the current settings, and splits back into the tokens. |
| Accessibility.Provider.SetReducedMotion | portfolio/src/components/AccessibilityProvider.tsx:21-32 | The setting takes the value (from the checkbox or the media query), and the document shows the new settings. |
| Accessibility.Provider.SetHighContrast | portfolio/src/components/AccessibilityProvider.tsx:38 | The setting takes the value, and the document shows the new settings. |
| Accessibility.Provider.SetFontSize | portfolio/src/components/AccessibilityProvider.tsx:39 | The size takes the value, and the document shows the new settings. |

## Left out

- `NaN` and infinities of JavaScript numbers are not modelled. Scroll progress and the
  Web-Vitals readings are `real`, and float rounding is not modelled.
- String lengths count characters, not UTF-16 code units, so characters outside the Basic
  Multilingual Plane count once.
- `parseInt` is modelled for decimal text only. The `0x` prefix, the radix argument and
  `Infinity` are not modelled, because the totals read only decimal digits.
- The network is left out. The `fetch` call, the commented-out mail delivery in the contact
  handler, `console` output, `Date().toISOString()`, `performance.mark/measure`,
  `PerformanceObserver` registration and the analytics script are all omitted. A fetch
  outcome, the current time and the observer entries are parameters instead.
- ContactRoute.Post: only string-valued (or absent) `email`, `message` and `name` fields
  are modelled, because both contact pages send `JSON.stringify` of string fields. A
  non-string JSON value would be judged by JavaScript truthiness and by the `String()`
  coercion of `regex.test` (`message: true` accepted, `message: 0` missing, `email:
  ["a@b.co"]` accepted); the model cannot express such bodies.
- DebugLog.DebugLogger.Log: the optional `data` argument is not modelled; it only goes to
  the console and the stored entry.
- DebugLog.DebugLogger.UpdateConfig: a field passed explicitly as `undefined` is treated
  like an absent field. The spread would in fact copy `undefined` into the configuration.
- GameWorld: the `avgRating` average and the `toFixed` display are floating-point
  formatting, so they are left out.
- GameWorld.ToggleSelection: the property that two clicks on one project always end with
  nothing selected is stated only when the project was not selected before. It does not
  hold otherwise: two clicks on the selected project select it again.
- Rendering is not modelled: scene graphs, animation, shaders, icons, descriptions, colours
  and layout. Only the selection of what is rendered is modelled.
- PerformanceMonitor.Shown: the display formatting is not modelled. FCP, LCP, FID and TTFB
  are shown as `Math.round` of the reading with an 'ms' suffix, and CLS as `toFixed(3)`;
  the model's displayed value is the reading itself.
- React scheduling is not modelled. Each `setX` is an immediate assignment. In the
  accessibility provider, the class effect re-runs inside each setter. The media-query
  listener is the same `SetReducedMotion` call, whose argument is the query's `matches`.
- ImmersiveModeAdvanced, ImmersiveMode: the zone itself belongs to the parent and changes
  through `onZoneChange`. The scene classes hold it as a field. `collectedSkills` is never
  extended by either component, so no method extends it.
