# Portfolio site: UI state machines

A model of the only logic in a single-page portfolio site. Everything else on the site is static content. There are three small, sequential state machines, each written as a Dafny class whose methods are the event handlers. Each handler of the navigation and contact classes, and the blog's close and preview-click handlers, is tied to a pure `Step` function over a state datatype; the blog's `HandleReadMore` takes an arbitrary post, as `handleReadMore` does. Lemmas about event traces (`Run`) state what the page promises.

- `App` (`app.dfy`). `renderContent` dispatches the active tab id to one of eight sections and falls back to Home for any other string. The menu is the fixed `tabs` list plus the logo. The navigation state is the active tab (held by `App`) and the mobile-menu flag (held by `Navigation`). The two are merged into one class, `Navigation`. A tab click sets the tab and forces the menu closed. The burger button only flips the menu.
- `Contact` (`contact.dfy`). The `ContactTab` form controller has four fields, a `{type, message}` status and an `isSubmitting` flag. Submission is simulated. Submit marks the form as sending and clears the status. One second later a completion timer shows the thank-you banner, empties the fields and ends sending. Five seconds after that a second timer clears the status. The two timers are explicit events (`Complete`, `ClearStatus`), and the state counts how many of each are scheduled, because the code never cancels one.
- `Blog` (`blog.dfy`). The blog page has a fixed list of three posts and one state cell, the selected post. A preview click sets it and the modal's close button clears it. The modal is shown exactly while a post is selected. The application's root does not use this component: `App` renders its own placeholder blog section.
- `Options` (`options.dfy`): the `Option` datatype.

Three facts about the code shape the contact model:

- The submit path is simulated and always succeeds: there is no relay and no error status (`Contact.BannerOnlyOnSuccess`).
- `handleSubmit` has no re-entry guard; only `disabled={isSubmitting}` on the inputs and button (src/App.jsx:169, 223) prevents re-entry. The model keeps the two apart: `CanOccur` is what the handlers accept, and `UiAllows` adds the disabled controls (`Contact.SubmitTwiceArmsTwoCompletions`, `Contact.UiTraceKeepsUiInv`).
- The five-second clear (src/App.jsx:129) is never cancelled, so an earlier clear can remove a later success banner (`Contact.EarlierClearRemovesLaterBanner`).

## Model

| member | source | states |
|---|---|---|
| `App.RenderContentOfId` | src/App.jsx:723-744 | each of the eight section ids is dispatched to its own section |
| `App.SectionIdInjective` | src/App.jsx:723-744 | two sections have the same case label iff they are the same section |
| `App.RenderContentExact` | src/App.jsx:723-744 | an id renders section s iff it is s's case label, or s is Home and no case names the id |
| `App.DefaultIsHome` | src/App.jsx:741-742 | any id that no case names falls to the default branch, Home |
| `App.MenuIdsDistinct` | src/App.jsx:21-28 | the menu's tab ids are pairwise distinct (they are the buttons' React keys) |
| `App.MenuIdsDispatch` | src/App.jsx:21-28 | every menu id is the case label of its own section, and that section is not Home |
| `App.LogoAndBlog` | src/App.jsx:41 | the logo's id renders Home and is not a menu id; "blog" is dispatched to Blog but no menu entry names it |
| `App.AtMostOneHighlighted` | src/App.jsx:56 | at most one menu button is highlighted as active, and none while the logo's Home is active |
| `App.RunNav` | src/App.jsx:30-33 | after any events the tab is the last clicked id; the menu is open iff an odd number of burger presses followed the last click (or, with no click, the start state flipped that many times) |
| `App.UiReachesOnlyMenuSections` | src/App.jsx:21-41 | from the initial state, the logo, menu buttons and burger keep the tab on the logo's or a menu id: the default branch is never taken and Blog is never shown |
| `App.Navigation.constructor` | src/App.jsx:19 | the tab starts at "home" (line 721) and the menu closed |
| `App.Navigation.HandleTabClick` | src/App.jsx:30-33 | the tab becomes the clicked id and the menu is closed, whatever its prior state |
| `App.Navigation.ToggleMenu` | src/App.jsx:70 | the menu flag flips and the tab is unchanged |
| `App.Navigation.ClickLogo` | src/App.jsx:41 | a logo click selects Home and closes the menu |
| `App.Navigation.ClickMenuTab` | src/App.jsx:54 | a menu button selects its own tab, whose section is its own case and not Home, and closes the menu |
| `Contact.WithSetsOneField` | src/App.jsx:133-138 | an edit sets the named field to the value and leaves the other three unchanged |
| `Contact.FormExtensional` | src/App.jsx:107-112 | a form is determined by its four fields |
| `Contact.WithExact` | src/App.jsx:133-138 | the edit of one field exactly: editing `field` to `v` in f gives g iff g has `v` in `field` and agrees with f on the other three |
| `Contact.InitialUiInv` | src/App.jsx:107-114 | the form starts empty with no banner and nothing pending, and satisfies the controller invariant |
| `Contact.StepKeepsInv` | src/App.jsx:116-138 | every event the handlers accept keeps the invariant: status idle or success, a success banner has a clear timer behind it and is not shown while sending, sending has a completion timer behind it |
| `Contact.RunKeepsInv` | src/App.jsx:116-138 | the invariant holds after any sequence of accepted events |
| `Contact.UiTraceKeepsUiInv` | src/App.jsx:223 | with the disabled controls, at most one completion is ever pending, exactly while sending |
| `Contact.BannerOnlyOnSuccess` | src/App.jsx:146-151 | in a reachable state, the banner shows iff the status is success, and it is then green with the thank-you text: no error banner exists |
| `Contact.CaptionTracksPendingCompletion` | src/App.jsx:230 | with the disabled controls, "Sending..." shows iff the completion timer is pending |
| `Contact.SubmitTwiceArmsTwoCompletions` | src/App.jsx:116-119 | the submit handler has no re-entry guard: two submits arm two completions, and only the disabled controls rule this out |
| `Contact.EarlierClearRemovesLaterBanner` | src/App.jsx:129 | the clear timer is never cancelled: after two completed submissions, the first clear removes the second banner while the second's clear is still pending |
| `Contact.FillAndSubmit` | src/App.jsx:122-128 | filling all four fields, submitting and completing leaves the success status, an empty form, sending over and one clear pending |
| `Contact.ContactTab.constructor` | src/App.jsx:107-114 | empty fields, idle status, not sending |
| `Contact.ContactTab.HandleChange` | src/App.jsx:133-138 | exactly the named field takes the value; nothing else changes |
| `Contact.ContactTab.HandleSubmit` | src/App.jsx:116-119 | sending is set, the status is reset to empty, the fields are untouched and a completion timer is armed |
| `Contact.ContactTab.Complete` | src/App.jsx:122-129 | success status with the fixed thank-you text, all four fields empty, sending over, a clear timer armed |
| `Contact.ContactTab.ClearStatus` | src/App.jsx:129 | the status is reset to empty (banner hidden); fields and sending unchanged |
| `Blog.PostIdsDistinct` | src/BlogTab.jsx:5-71 | the post ids are 1, 2, 3 in order and pairwise distinct (the previews' React keys, line 157) |
| `Blog.TagsDistinct` | src/BlogTab.jsx:93-95 | within each post the tags are pairwise distinct (the chips' React keys) |
| `Blog.CloseIdempotent` | src/BlogTab.jsx:144-146 | closing twice equals closing once, and opening then closing leaves nothing selected |
| `Blog.SelectionIsLastClick` | src/BlogTab.jsx:140-146 | from no selection, the selection is nothing or a listed post, and it is decided by the last click alone |
| `Blog.BlogTab.constructor` | src/BlogTab.jsx:138 | initially no post is selected and no modal is shown |
| `Blog.BlogTab.HandleReadMore` | src/BlogTab.jsx:140-142 | the given post becomes selected and the modal shows |
| `Blog.BlogTab.HandleCloseModal` | src/BlogTab.jsx:144-146 | nothing is selected and the modal is hidden |
| `Blog.BlogTab.ClickPreview` | src/BlogTab.jsx:75 | a click on a preview selects that listed post |

## Left out

- Markup, styling classes, icons and the static content (projects, experience, achievements, certifications, post bodies and excerpts) are left out. They are presentational data with no behaviour. Menu captions and post metadata are kept as data.
- The resume download (src/App.jsx:258-266) is left out: it builds a DOM link and starts a browser file download.
- Rendering a post's Markdown body is left out. The Markdown library and the raw HTML injection are foreign code.
- Real timer durations and React's asynchronous batching of state updates are left out. The one- and five-second timers are explicit events: a timer can fire at any time after it is armed; pending timers are not ordered against each other.
- `e.preventDefault()` (src/App.jsx:117) is a browser effect and is left out; the model assumes it, since without it the form's submission would reload the page and discard all state.
- An email relay and any error outcome are left out: the code has neither.
- Browser `required`-field validation is left out. The browser enforces it, not this code.
- Unmounting is left out. When the user navigates away from Contact, React discards `ContactTab`'s state, and a pending timer then fires on the discarded component. The model's controller lives for the whole session.
- Contact.ContactTab.HandleChange takes one of the four inputs' names (src/App.jsx:164, 180, 196, 211). Those four inputs are its only callers. An arbitrary key, which JavaScript would add to the form object as a fifth entry, is not modelled.
- Blog.BlogTab.HandleReadMore: the modal covering the page while open, which in practice stops a second preview click, is a styling effect and is not modelled. The handler accepts a click at any time.
