# SparklePro cleaning website: page logic in Dafny

The site is a Next.js marketing site for a cleaning business. Four of its
pages hold client-side logic beyond markup, and this project models that logic
and proves what it promises:

- **Gallery** (`app/gallery/page.tsx`): a category filter over nine photographs
  and a lightbox. Clicking a photograph opens it at its position in the
  filtered list, and next/previous buttons step through that list with
  wrap-around. The lightbox also shows an "i of n" counter.
- **Services** (`app/services/page.tsx`): a category filter over six services.
  Each card lists at most three features plus a "+N more features" line. A
  detail dialog is open while a service is selected.
- **Contact** (`app/contact/page.tsx`): the inquiry form's zod schema. The
  "Other Services" choice reveals an extra field and clears it when another
  service is chosen. Submission is simulated: `isSubmitting` disables the
  button while the request is pending, and the form resets on success.
- **Home** (`app/page.tsx`): the hero quick-quote form, which has the same rules
  without the extra field. The testimonial slideshow is advanced by a timer,
  `(prev + 1) % testimonials.length`, and its dots jump to one testimonial.

Modules (one file each):

- `Cycle`: the modular next/previous step.
- `ArrayOps`: JavaScript's `filter` by category, the `'All'` shortcut around it, and `findIndex`.
- `FormRules`: the zod field rules and their messages.
- `Gallery`, `Services`, `Contact` and `Home`: one module per page.
- `Wrappers`: `Option`, for the nullable state.

Pure expressions are functions with lemmas. The React state of each page is a
class whose methods are the event handlers. A method's `ensures` gives the new
state in terms of the old one, and its invariant (`InSync`, `Consistent`,
`Valid`) is preserved. The one exception is `GalleryPage.SelectCategory` while
the lightbox is open: the source keeps the photograph and its index across the
category change, so they can go out of sync (see "## Left out").

Timers are steps. The contact and home forms' `setTimeout` is split into
`Submit`, which runs the validation and sets `isSubmitting`, and `Settle`, the
moment the delay resolves. The slideshow's `setInterval` callback is
`HomePage.Tick`. Whether an address is accepted is decided by the browser's
`type="email"` check and zod's `.email()` grammar, neither of which is part of
this model, so it is a parameter `isEmail: string -> bool` of the forms.

Two places where the page's text and its code disagree:

- The label "Please specify your service request *" (app/contact/page.tsx:252)
  marks the extra field as required, but the schema makes it
  `z.string().optional()` (app/contact/page.tsx:22). The model follows the
  schema: the field never produces a validation error.
- The `catch` branches (app/contact/page.tsx:101-102, app/page.tsx:117-118)
  show a failure toast, but they cannot be reached, because the awaited delay
  never rejects.

## Model

| member | source | states |
|---|---|---|
| Cycle.NextIndex | app/gallery/page.tsx:93 | `(i + 1) % n` stays in [0, n): it is i + 1, and wraps to 0 from n - 1 |
| Cycle.PrevIndex | app/gallery/page.tsx:99 | `(i - 1 + n) % n` stays in [0, n): it is i - 1, and wraps from 0 to n - 1 |
| Cycle.PrevAfterNext | app/gallery/page.tsx:92-102 | stepping back after stepping forward restores the index |
| Cycle.NextAfterPrev | app/gallery/page.tsx:92-102 | stepping forward after stepping back restores the index |
| Cycle.Advance | app/gallery/page.tsx:92-96 | any number of forward steps keeps the index in [0, n) |
| Cycle.AdvanceWithoutWrap | app/gallery/page.tsx:93 | until the end is passed, k steps move exactly k places |
| Cycle.AdvanceCompose | app/gallery/page.tsx:92-96 | a + b steps are a steps followed by b steps |
| Cycle.AdvanceToStart | app/gallery/page.tsx:93 | from index i, n - i steps wrap around to index 0 |
| Cycle.FullCycle | app/gallery/page.tsx:92-96 | n presses of "next" return to the starting index |
| ArrayOps.WithCategory | app/gallery/page.tsx:85 | the filtered list holds exactly the elements of that category, and is no longer than the input |
| ArrayOps.WithCategoryCons | app/services/page.tsx:148 | filtering a list with a known head keeps or drops that head and filters the rest |
| ArrayOps.WithCategoryIsSubsequence | app/gallery/page.tsx:85 | the filtered list is a subsequence of the input: order is preserved |
| ArrayOps.SubsequenceOfTail | app/gallery/page.tsx:85 | a subsequence of a list's tail is a subsequence of the list |
| ArrayOps.SubsequenceDropHead | app/gallery/page.tsx:85 | dropping the first element of a subsequence leaves a subsequence |
| ArrayOps.WithCategoryCounts | app/gallery/page.tsx:85 | every element of the category occurs as often as in the input, every other element not at all |
| ArrayOps.WithCategoryIdempotent | app/services/page.tsx:148 | filtering twice by a category equals filtering once |
| ArrayOps.ByCategory | app/gallery/page.tsx:83-85 | the `'All'` ternary: `'All'` gives the list itself, and no choice gives a longer list |
| ArrayOps.ByCategoryMembers | app/gallery/page.tsx:83-85 | an element is shown exactly when it is in the list and either `'All'` or its own category is selected |
| ArrayOps.ByCategoryIdempotent | app/services/page.tsx:146-148 | choosing the same category again, `'All'` included, leaves the list unchanged |
| ArrayOps.UniqueKeyDetermines | app/gallery/page.tsx:89 | in a list with distinct ids, two members with the same id are the same item |
| ArrayOps.WithCategoryKeepsUnique | app/gallery/page.tsx:85 | filtering keeps ids distinct |
| ArrayOps.FindIndex | app/gallery/page.tsx:89 | `findIndex` returns the first matching index, or -1 exactly when nothing matches |
| Gallery.GalleryIdsUnique | app/gallery/page.tsx:12-76 | the nine gallery items have distinct ids |
| Gallery.Filtered | app/gallery/page.tsx:83-85 | `filteredItems` is never longer than the gallery; its contents are stated by `FilteredAll` and `FilteredByCategory` |
| Gallery.GalleryPage.LightboxOpen | app/gallery/page.tsx:192 | the lightbox dialog is open exactly while a photograph is selected (`!!selectedImage`) |
| Gallery.FilteredAll | app/gallery/page.tsx:83-84 | category `'All'` shows the whole gallery unchanged |
| Gallery.FilteredByCategory | app/gallery/page.tsx:85 | any other category shows exactly the items of that category, each as often as in the gallery, in gallery order |
| Gallery.FilteredIdsUnique | app/gallery/page.tsx:83-85 | every filtered list has distinct ids |
| Gallery.GalleryPage.constructor | app/gallery/page.tsx:79-81 | the page filters the nine gallery items, whose ids are distinct, and starts on `'All'` with the lightbox closed and the index at 0 |
| Gallery.GalleryPage.ShowsNavigation | app/gallery/page.tsx:207 | the previous/next buttons are shown exactly when a step would change the photograph, i.e. n > 1 |
| Gallery.GalleryPage.Counter | app/gallery/page.tsx:242 | the counter `currentImageIndex + 1` lies in [1, n] and numbers the shown photograph |
| Gallery.GalleryPage.SelectCategory | app/gallery/page.tsx:130-134 | a filter button changes only the category; re-selecting the current category keeps the lightbox in sync, and a category that drops the shown photograph leaves an open lightbox out of sync |
| Gallery.CategoryChangeDropsPhotograph | app/gallery/page.tsx:83-85 | the second photograph is shown under `'All'` but not under "Commercial", so that click can desynchronise an open lightbox |
| Gallery.PositionById | app/gallery/page.tsx:89 | in a list with distinct ids that holds the item, `findIndex` by id returns the item's own position |
| Gallery.GalleryPage.OpenLightbox | app/gallery/page.tsx:87-90 | opening an item of the filtered list shows it and sets the index to its position, found by its id |
| Gallery.GalleryPage.NextImage | app/gallery/page.tsx:92-96 | "next" moves the index to `(i + 1) % n` and shows the photograph at that index |
| Gallery.GalleryPage.PrevImage | app/gallery/page.tsx:98-102 | "previous" moves the index to `(i - 1 + n) % n` and shows the photograph at that index |
| Gallery.GalleryPage.CloseLightbox | app/gallery/page.tsx:192-201 | closing clears the selected photograph and changes nothing else |
| Gallery.NextThenPrev | app/gallery/page.tsx:92-102 | "next" then "previous" restores the photograph and the index, and keeps the category |
| Gallery.PrevThenNext | app/gallery/page.tsx:92-102 | "previous" then "next" restores the photograph and the index, and keeps the category |
| Gallery.NextThroughAll | app/gallery/page.tsx:92-96 | n presses of "next" on a filtered list of n photographs show the starting photograph at its index again, with the category kept |
| Services.FilteredServices | app/services/page.tsx:146-148 | `filteredServices` is never longer than the six services; its contents are stated by `FilteredServicesAll` and `FilteredServicesByCategory` |
| Services.FilteredServicesAll | app/services/page.tsx:146-147 | category `'All'` shows all six services unchanged |
| Services.FilteredServicesByCategory | app/services/page.tsx:148 | any other category shows exactly the services of that category, in their original order |
| Services.FilteredServicesIdempotent | app/services/page.tsx:148 | filtering the shown cards again by the same category changes nothing |
| Services.CategoriesPartitionServices | app/services/page.tsx:13-140 | Residential, Commercial and Specialized hold two services each and together cover all six |
| Services.WithCategoryOfSix | app/services/page.tsx:148 | filtering a six-element list keeps each element exactly when its category matches, in order |
| Services.CardFeatures | app/services/page.tsx:228 | `features.slice(0, 3)` is a prefix of length min(3, n) |
| Services.MoreFeatures | app/services/page.tsx:234-236 | the "+N more" line appears exactly when there are more than 3 features |
| Services.CardAccountsForEveryFeature | app/services/page.tsx:228-238 | listed features plus N give every feature, with N = n - 3 when the line is shown |
| Services.EveryCardShowsThreeOfSix | app/services/page.tsx:228-238 | every service card lists 3 features and reads "+3 more features" |
| Services.ServicesPage.constructor | app/services/page.tsx:143-144 | the page starts on `'All'` with no dialog open |
| Services.ServicesPage.DialogOpen | app/services/page.tsx:260 | the detail dialog is open exactly while a service is selected (`!!selectedService`) |
| Services.ServicesPage.SelectCategory | app/services/page.tsx:176-181 | a filter button changes only the category |
| Services.ServicesPage.ViewDetails | app/services/page.tsx:244 | "View Details" opens the dialog on that service and keeps the category |
| Services.ServicesPage.CloseDetails | app/services/page.tsx:260 | dismissing closes the dialog and keeps the category |
| FormRules.MinLengthRule | app/contact/page.tsx:18-23 | `min(n)` reports an error on the field exactly when its length is below n |
| FormRules.EmailRule | app/contact/page.tsx:19 | `.email()` reports an error exactly when the address check fails |
| FormRules.HasErrorAppend | app/contact/page.tsx:17-24 | the errors of two rule lists together are the errors of either |
| Contact.Set | app/contact/page.tsx:176-282 | editing a field sets that field and leaves every other field unchanged |
| FormRules.InquiryErrors | app/contact/page.tsx:18-23 | errors on name (length < 2), email, phone (length < 10), service (empty) and message (length < 10), each exactly when that rule fails; never on otherService; no error exactly when every rule passes |
| Contact.ContactErrors | app/contact/page.tsx:17-24 | the contact schema never reports otherService, and accepts exactly when name, email, phone, service and message pass, whatever otherService holds |
| Contact.DefaultsRejected | app/contact/page.tsx:69-76 | the empty defaults fail the name, phone, service and message rules |
| Contact.OtherServicesDetailOptional | app/contact/page.tsx:22 | "Other Services" with an empty extra field is accepted |
| Contact.PhoneFormatUnchecked | app/contact/page.tsx:20 | the phone rule only counts characters: any phone of the same length, letters included, gives the same errors |
| Contact.ServiceEffect | app/contact/page.tsx:81-86 | the effect empties the extra field unless the service is "Other Services", and changes nothing else |
| Contact.ServiceEffectIdempotent | app/contact/page.tsx:81-86 | running the effect again changes nothing |
| Contact.ContactForm.constructor | app/contact/page.tsx:64-77 | the form starts empty, the extra field hidden, nothing submitting |
| Contact.ContactForm.SubmitEnabled | app/contact/page.tsx:288 | the submit button is enabled exactly while no submission is pending |
| Contact.ContactForm.RunServiceEffect | app/contact/page.tsx:81-86 | the extra field is shown exactly for "Other Services", and cleared otherwise |
| Contact.ContactForm.Edit | app/contact/page.tsx:79-86 | an edit sets one field; choosing a service also runs the effect; the show/clear invariant is kept |
| Contact.ContactForm.Submit | app/contact/page.tsx:88-89 | ignored while submitting; invalid values are rejected with their errors and nothing changes; valid values are sent and `isSubmitting` becomes true |
| Contact.ContactForm.Settle | app/contact/page.tsx:98-104 | on success every field is reset, the extra field hidden, and `isSubmitting` false |
| Contact.SubmitValidInquiry | app/contact/page.tsx:88-104 | for a valid inquiry the first press returns `Sending` with the values, a second press while pending returns `Ignored`, and the form ends empty and enabled |
| Home.ServiceOptions | app/page.tsx:274-278 | the drop-down lists the services' titles, in order |
| Home.ServiceOptionsAreTitles | app/page.tsx:20-39 | the options are the three titles, and each passes the service rule |
| Home.Set | app/page.tsx:218-302 | editing a hero field sets it and leaves the others unchanged |
| Home.HeroErrors | app/page.tsx:90-96 | errors only ever concern the five hero fields, and the form is accepted exactly when name length >= 2, the email passes, phone length >= 10, service is non-empty and message length >= 10 |
| Home.HeroRulesAreContactRules | app/page.tsx:90-96 | the hero schema reports the same errors as the contact schema, whatever the extra field holds |
| Home.HeroDefaultsRejected | app/page.tsx:102-108 | the empty defaults fail the name, phone, service and message rules |
| Home.NextTestimonial | app/page.tsx:128 | a tick's `(prev + 1) % 3` stays in [0, 3) |
| Home.ThreeTicksReturn | app/page.tsx:125-130 | three ticks return to the starting testimonial |
| Home.DotActive | app/page.tsx:489 | dot idx is highlighted exactly when `idx === testimonialIndex` |
| Home.ExactlyOneDotActive | app/page.tsx:486-491 | exactly one dot is highlighted: the current testimonial's |
| Home.HomePage.constructor | app/page.tsx:99-125 | the page starts with an empty form, nothing submitting, testimonial 0 |
| Home.HomePage.SubmitEnabled | app/page.tsx:307 | "Request a Quote" is enabled exactly while no request is pending |
| Home.HomePage.Tick | app/page.tsx:127-129 | a timer tick advances the testimonial cyclically and changes nothing else |
| Home.HomePage.SelectDot | app/page.tsx:490 | clicking dot idx shows testimonial idx, which becomes the only highlighted dot |
| Home.HomePage.Edit | app/page.tsx:220-302 | an edit sets one hero field |
| Home.HomePage.Submit | app/page.tsx:111-112 | ignored while submitting; invalid values rejected with their errors; valid values sent and `isSubmitting` set |
| Home.HomePage.Settle | app/page.tsx:113-121 | on success the hero form is reset and `isSubmitting` ends false |
| Home.ThreeTicks | app/page.tsx:127-129 | three timer ticks bring the slideshow back to where it started, and leave the hero form and `isSubmitting` unchanged |

## Left out

- Rendering, framer-motion animation, icons, `next/image`, layout classes and the Google Maps iframe are presentation.
- The about page, the footer and the root layout are static content.
- The browser's `type="email"` check and the zod `.email()` address grammar are not modelled; the forms take their combined verdict as a parameter `isEmail`.
- react-hook-form's `watch`, `setValue`, `reset` and `handleSubmit` are modelled only by their effect on the field values. The `watchService` effect runs in the same step as the service edit. React runs it after the render, and only when the value changed; by `Contact.ServiceEffectIdempotent`, running it again gives the same state.
- `setTimeout` and `setInterval` are modelled as discrete steps (`Settle`, `Tick`), not as time. The interval's clean-up on unmount is not modelled.
- The `catch` branches with their error toasts are left out: the awaited promise never rejects. The success toasts and `console.log` are output only.
- Field lengths are counted in Unicode characters. JavaScript counts UTF-16 code units, so a character outside the Basic Multilingual Plane counts once here and twice in the browser.
- Gallery.GalleryPage.NextImage: requires the index to be in range. A stale index is left out: that happens when the category changes under an open lightbox, or when `findIndex` returns -1. With an empty filtered list, JavaScript's `% 0` gives `NaN`; that case is left out too.
- Gallery.GalleryPage.PrevImage: requires the index to be in range, for the same reason as `NextImage`.
- Gallery.GalleryPage.SelectCategory: keeps the selected photograph and its index, as the source does. With the lightbox open, a category that drops the photograph, or moves it, leaves `InSync` false (`Gallery.CategoryChangeDropsPhotograph`). The next "next" or "previous" press from such a state is the stale-index case left out under `NextImage`.
- Gallery.GalleryPage.OpenLightbox: requires the item to be in the filtered list, which is where the grid takes it from, and the page's ids to be distinct, which the constructor establishes and nothing changes.
- Contact.ContactForm.Submit: `isEmail` stands for the browser's `type="email"` check (app/contact/page.tsx:197) together with zod's `.email()`. The `<form>` has no `noValidate` (line 174), so when the browser rejects a non-empty address, `handleSubmit` never runs and no schema errors are shown. The model returns `Rejected` with the errors for that press instead.
- Home.HomePage.Submit: the same holds for the hero form (`type="email"` at app/page.tsx:240, the `<form>` at line 218). A press the browser blocks shows no schema errors, although the model returns `Rejected`.
- Contact.ContactForm.Edit: only edits the UI can make are modelled. The extra field is typed into only while it is shown, and the service comes from the drop-down.
- The "Book This Service", "Get Quote" and "Get Custom Quote" buttons have no handlers in the source.
