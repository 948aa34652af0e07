# Trade program front-end: verified model of its in-memory logic

This project models in Dafny the three pieces of the trade program's React
front-end that hold logic rather than presentation, and proves their
properties.

- **The application wizard** (`form_wizard.dfy`, module `FormWizard`). It covers:
  - the 22-field application record and the `INITIAL_DATA` defaults;
  - the per-step required-field validator, which builds a field-to-message error map;
  - clearing a field's error when that field is edited;
  - the step counter, clamped to 1..2;
  - the draft store, which browser storage keys by business email, with save on leaving step 1 and restore when the email field loses focus;
  - submit, and "Return to Home".

  The handlers are methods of a `TradeForm` class whose fields are the component's state. The draft store is a `DraftStore` class over a `map`. The validator follows the source's sixteen ordered `if` checks: four on step 1 and twelve on step 2. It is proved equal to a declarative error map, `StepErrors`, and the listed properties are proved about that map.
- **The annotation component** (`annotations.dfy`, module `Annotations`). It covers:
  - the drag slot (box, anchor or none);
  - the two reference positions recorded when a drag starts;
  - the delta arithmetic of a pointer move;
  - commit on release;
  - the edit-mode guard on box drags;
  - the blur commit, which fires only when the content changed, including the blur that a press on the header causes while editing;
  - the immediate template commit;
  - the connector curve;
  - the prop-sync effect.

  The component is a class `DraggableAnnotation`. Each call to a parent callback comes back as the method's result: an `UpdateCall`, the body to duplicate, or the id to delete.
- **The dashboard** (`dashboard.dfy`, module `Dashboard`). It covers:
  - the demo accounts of `ROLES_DATA`;
  - the capped progress percentage;
  - the next-milestone branching and the message it selects;
  - the effect that moves a "General Customer" off the dashboard view, and which view renders;
  - the annotation collection's append, delete-by-id, duplicate-with-offset and merge-update-by-id.

  The collection operations are functions on `seq`. The `TradeDashboard` class holds the state and replaces its list with their results.

`wrappers.dfy` holds the `Option` type.

Three behaviours of the code worth noting:
- **Submit** validates the *current* step (`TradeForm.tsx:160`), not step 2. The submit button is only rendered on step 2.
- **"Return to Home"** (`TradeForm.tsx:187`) resets the form to `INITIAL_DATA`, whose country is "US", not all empty. It does not clear the error map.
- **A successful validation** leaves the error map as it was (`TradeForm.tsx:124-129`). Errors are not cleared when the step changes.

## Model

| member | source | states |
|---|---|---|
| FormWizard.SetChangesOnlyNamedField | components/TradeForm.tsx:85 | writing one field by name gives it the new value and leaves every other field as it was |
| FormWizard.InitialBlankExceptCountry | components/TradeForm.tsx:9-32 | in the initial form every field is empty or false except the country, which is "US" |
| FormWizard.ErrorMessage | components/TradeForm.tsx:102-121 | every message a check can record is non-empty, so a recorded error is always truthy |
| FormWizard.Step1Reports | components/TradeForm.tsx:101-105 | step 1 reports each of email, first name, last name and company name exactly when it is empty, and reports nothing else |
| FormWizard.Step1Passes | components/TradeForm.tsx:101-105 | step 1 yields no errors iff all four account fields are non-empty |
| FormWizard.Step2ReportsAddress | components/TradeForm.tsx:107-112 | step 2 reports each of country, phone, street address, city, state and ZIP code exactly when it is empty |
| FormWizard.Step2ReportsProfile | components/TradeForm.tsx:114-116 | step 2 reports each of role, business focus and website exactly when it is empty |
| FormWizard.Step2ReportsFollowUp | components/TradeForm.tsx:118-121 | step 2 reports sourceOther iff the source is "other" and sourceOther is empty, and each consent iff it is unticked |
| FormWizard.Step2ReportsOnlyItsFields | components/TradeForm.tsx:106-122 | step 2 never reports an account field or a field no check covers |
| FormWizard.Step2Passes | components/TradeForm.tsx:106-121 | step 2 yields no errors iff the nine detail fields are non-empty, both consents are ticked, and sourceOther is filled whenever the source is "other" |
| FormWizard.OtherStepsPass | components/TradeForm.tsx:101-122 | any step other than 1 and 2 reports nothing |
| FormWizard.SourceOtherOnlyWhenOther | components/TradeForm.tsx:118 | when the source is not "other", the content of sourceOther has no effect on step 2's errors |
| FormWizard.ErrorsOfFirstExactly | components/TradeForm.tsx:98-122 | after the first n checks of a step, the map holds exactly the missing fields checked so far, each with its message |
| FormWizard.AllChecksGiveStepErrors | components/TradeForm.tsx:98-122 | running all of a step's checks in order gives exactly the step's declarative error map |
| FormWizard.AccountAccessErrors | components/TradeForm.tsx:101-105 | the four step-1 checks, as written, collect exactly the step-1 error map |
| FormWizard.ContactErrors | components/TradeForm.tsx:107-108 | the country and phone checks collect the errors of the first two step-2 checks |
| FormWizard.AddressErrors | components/TradeForm.tsx:109-112 | the address checks extend the first two step-2 checks' errors to the first six |
| FormWizard.ProfileErrors | components/TradeForm.tsx:114-116 | the profile checks extend the first six step-2 checks' errors to the first nine |
| FormWizard.FollowUpErrors | components/TradeForm.tsx:118-121 | the source and consent checks extend the first nine step-2 checks' errors to all twelve |
| FormWizard.BusinessInfoErrors | components/TradeForm.tsx:106-121 | the twelve step-2 checks, as written, collect exactly the step-2 error map |
| FormWizard.DraftStore.SaveDraft | components/TradeForm.tsx:36-44 | a save stores the snapshot under the email and replaces any earlier draft, leaving other emails' drafts alone |
| FormWizard.DraftStore.GetDraft | components/TradeForm.tsx:45-50 | a lookup finds a draft iff one was saved under the email, and returns that draft |
| FormWizard.Restored | components/TradeForm.tsx:71-78 | restoring never changes the email, and changes the form only on step 1 for an email with a saved draft |
| FormWizard.SaveThenRestore | components/TradeForm.tsx:71-78 | a draft saved under a non-empty email comes back whole on a step-1 blur with that email, whatever the form held meanwhile |
| FormWizard.RestoreWithoutDraft | components/TradeForm.tsx:72-74 | with an empty email, off step 1, or with no draft for the email, a blur changes nothing |
| FormWizard.TradeForm.constructor | components/TradeForm.tsx:62-66 | a new form holds the initial data on step 1, not submitted, with no errors |
| FormWizard.TradeForm.HandleEmailBlur | components/TradeForm.tsx:71-79 | the form becomes the restored form for the current step and the store's drafts; nothing else changes |
| FormWizard.TradeForm.HandleChange | components/TradeForm.tsx:81-95 | only the named field is written (a check box with its checked state, other controls with their value), and only that field's error is removed |
| FormWizard.TradeForm.ValidateStep | components/TradeForm.tsx:97-130 | the step is valid iff its error map is empty; on failure the errors become that map, on success they are left untouched |
| FormWizard.TradeForm.HandleNext | components/TradeForm.tsx:132-151 | a failed validation changes only the errors; a passed one advances the step to min(step+1, 2), and when leaving step 1 it stores the whole form under its email |
| FormWizard.TradeForm.HandleBack | components/TradeForm.tsx:153-156 | the step becomes max(step-1, 1) without validating |
| FormWizard.TradeForm.HandleSubmit | components/TradeForm.tsx:158-168 | submitted is set iff the current step validates; otherwise the errors become that step's error map |
| FormWizard.TradeForm.ReturnToHome | components/TradeForm.tsx:187 | the form is initial again, on step 1 and not submitted |
| FormWizard.Navigate | components/TradeForm.tsx:132-156 | any run of Next and Back presses keeps the step in 1..2 and every error message non-empty, leaves the form and the submitted flag alone, ends on step 1 when the last press is Back, and never moves the step back when every press is Next |
| FormWizard.ResumeFromDraft | components/TradeForm.tsx:141-143 | completing step 1, editing a field, going back and blurring the email gives back the form exactly as step 1 left it |
| FormWizard.SubmitThenReturnHome | components/TradeForm.tsx:158-187 | a valid step 2 submits, and "Return to Home" then gives step 1 with the initial form |
| Annotations.DragFollowsPointer | components/DraggableAnnotation.tsx:72-79 | the dragged element moves by exactly the pointer's displacement, and returns to its start when the pointer does |
| Annotations.DragDependsOnDisplacement | components/DraggableAnnotation.tsx:72-84 | two drags with the same pointer displacement land in the same place |
| Annotations.LastMoveWins | components/DraggableAnnotation.tsx:68-86 | after any non-empty run of moves, the element is where the last pointer position alone puts it |
| Annotations.ConnectorPath | components/DraggableAnnotation.tsx:161-173 | the curve starts at the anchor and ends 20 right of the box's top-left corner; its control point is level with the end and in line with the start |
| Annotations.ConnectorMovesWithBoth | components/DraggableAnnotation.tsx:161-173 | moving anchor and box by the same offset moves all three points of the curve by it |
| Annotations.ConnectorEndsMoveIndependently | components/DraggableAnnotation.tsx:161-173 | moving only the box keeps the curve's start, moves its end by the same offset and its control point only vertically; moving only the anchor keeps the end, moves the start by the same offset and the control point only horizontally |
| Annotations.DraggableAnnotation.constructor | components/DraggableAnnotation.tsx:47-58 | a new component copies the record's positions and content, is not editing and not dragging, and has its menu closed and both references at the origin |
| Annotations.DraggableAnnotation.SyncProps | components/DraggableAnnotation.tsx:61-65 | a new record from the parent resets the local box, anchor and content to the record's values |
| Annotations.DraggableAnnotation.StartDragBox | components/DraggableAnnotation.tsx:110-117 | while editing, nothing changes; otherwise the box becomes the target, the pointer and box position are recorded, and the menu closes |
| Annotations.DraggableAnnotation.StartDragAnchor | components/DraggableAnnotation.tsx:119-124 | the anchor becomes the target and the pointer and anchor position are recorded, with no editing guard |
| Annotations.DraggableAnnotation.HandleMouseMove | components/DraggableAnnotation.tsx:68-86 | only the dragged element moves, to start + (pointer - start pointer); with no target nothing moves |
| Annotations.DraggableAnnotation.HandleMouseUp | components/DraggableAnnotation.tsx:88-97 | a release during a drag commits the local position of the dragged element and the stored position of the other; the target is cleared in every case |
| Annotations.DraggableAnnotation.HandleDuplicate | components/DraggableAnnotation.tsx:126-135 | the button's own handler sends a duplicate request carrying the local box, anchor and content, not the stored ones |
| Annotations.DraggableAnnotation.HandleDelete | components/DraggableAnnotation.tsx:137-142 | the button's own handler sends a delete request carrying the stored record's id |
| Annotations.DraggableAnnotation.StartEditing | components/DraggableAnnotation.tsx:276 | a click on the content enters edit mode |
| Annotations.DraggableAnnotation.EditContent | components/DraggableAnnotation.tsx:267 | typing replaces the local content only |
| Annotations.DraggableAnnotation.ToggleTemplates | components/DraggableAnnotation.tsx:238 | the template button's own click handler flips the menu |
| Annotations.DraggableAnnotation.HandleContentBlur | components/DraggableAnnotation.tsx:144-149 | blur leaves edit mode and commits the content iff it differs from the stored content |
| Annotations.DraggableAnnotation.HandleTemplateSelect | components/DraggableAnnotation.tsx:151-158 | the template text becomes the content, the menu closes, and the text is always committed |
| Annotations.DraggableAnnotation.GetPath | components/DraggableAnnotation.tsx:161-173 | the connector for the current local positions starts at the anchor, has its control point at (anchor.x, box.y), and ends at (box.x+20, box.y) |
| Annotations.DragBox | components/DraggableAnnotation.tsx:68-117 | a box drag outside edit mode through any run of pointer moves puts the box where the moves put it, which is the drag position of the last pointer alone; the anchor, the stored record, the content and the edit flag are kept, the press closes the menu, and the release commits the new box position with the stored anchor |
| Annotations.DragBoxWhileEditing | components/DraggableAnnotation.tsx:67-149 | a header press while editing starts no drag (line 111), but it takes the focus from the text area (onBlur, line 268): edit mode ends and the content is committed iff it differs from the stored content; the positions, record, content, menu and drag references are kept, and the move and release commit nothing |
| Annotations.DragBoxExample | components/DraggableAnnotation.tsx:72-79 | a box at (100,100) dragged by (30,-10) ends at (130,90) and commits (130,90) |
| Annotations.PressAndReleaseHeader | components/DraggableAnnotation.tsx:67-149 | a press and release on the header (onMouseDown, line 215) outside edit mode starts and ends a box drag at once: the menu closes, the drag references are set and the unchanged positions are committed; while editing no drag starts and the menu is kept, but the blur (line 268) ends edit mode and commits the content iff it changed; either way positions, content and record are kept and edit mode is off |
| Annotations.ClickTemplateButton | components/DraggableAnnotation.tsx:237-242 | outside edit mode the header's drag closes the menu before the click handler flips it, so the menu always ends open and an unchanged-position commit is sent; while editing the blur ends edit mode and commits the content iff it changed, and the click flips the menu; positions, content and record are kept |
| Annotations.ClickDuplicateButton | components/DraggableAnnotation.tsx:222-228 | the click requests a copy of the shown box, anchor and content; outside edit mode it also closes the menu and sends an unchanged-position commit; while editing the blur ends edit mode and commits the content iff it changed; positions, content and record are kept |
| Annotations.ClickDeleteButton | components/DraggableAnnotation.tsx:229-235 | the click requests deletion of the stored id; outside edit mode it also closes the menu and sends an unchanged-position commit; while editing the blur ends edit mode and commits the content iff it changed; positions, content and record are kept |
| Dashboard.GeneralIsOnlyGeneralRole | components/TradeDashboard.tsx:7-24 | only the general demo account carries the "General Customer" tier |
| Dashboard.RedirectedView | components/TradeDashboard.tsx:580-584 | a general customer is never left on the dashboard view; the view changes only for a general customer on the dashboard, and then to settings |
| Dashboard.RedirectIdempotent | components/TradeDashboard.tsx:580-584 | running the redirect again changes nothing |
| Dashboard.RedirectShowsAPage | components/TradeDashboard.tsx:788-793 | after the redirect some page always renders, and the dashboard page renders iff a non-general customer chose it |
| Dashboard.ProgressPercent | components/TradeDashboard.tsx:104-106 | the percentage never exceeds 100, equals 100 iff the spend reaches 10000, and below that is spend/100 |
| Dashboard.ProgressMonotone | components/TradeDashboard.tsx:106 | more spend never gives a smaller percentage |
| Dashboard.DashboardFigures | components/TradeDashboard.tsx:101-121 | for the demo accounts of ROLES_DATA: general 0% with 5000 to go to Plus, trade 32% with 1800 to go to Plus, plus 75% with 2500 to go to Elite, elite 100% with no milestone; the reward matches the milestone |
| Dashboard.NextMilestone | components/TradeDashboard.tsx:108-121 | the milestone is the lowest threshold above the spend with its reward and tier name, or 0 with empty texts from 10000 on; amountToNext is positive iff spend < 10000, which is exactly when the bar is not full |
| Dashboard.AddAnnotation | components/TradeDashboard.tsx:587-597 | add appends one blank entry with box (300,300) and anchor (350,450) under the new id; existing entries and their order are unchanged |
| Dashboard.DeleteAnnotation | components/TradeDashboard.tsx:599-601 | the result holds exactly the entries whose id differs from the argument, is a no-op when the id is absent, and contains no entry with that id |
| Dashboard.DeleteDistributes | components/TradeDashboard.tsx:600 | deleting from a concatenation deletes from each part in order, so the survivors keep their relative order |
| Dashboard.DeleteKeepsIdsUnique | components/TradeDashboard.tsx:600 | deleting keeps ids unique |
| Dashboard.DuplicateAnnotation | components/TradeDashboard.tsx:603-613 | exactly one entry is appended, carrying the new id, the content verbatim, and box and anchor each moved +20 in x and y |
| Dashboard.DuplicateExample | components/TradeDashboard.tsx:606-611 | duplicating content "X" at box (100,100) and anchor (50,50) appends "X" at (120,120) and (70,70) under a different id |
| Dashboard.AppendKeepsIdsUnique | components/TradeDashboard.tsx:587-613 | add and duplicate under an unused id keep ids unique |
| Dashboard.MergeLaws | components/TradeDashboard.tsx:617 | merging the empty patch is the identity, merging a patch twice is merging it once, and on each of id, box, anchor and content a later patch wins where it sets the field and keeps the earlier result where it does not |
| Dashboard.MergeTwice | components/TradeDashboard.tsx:617 | two successive updates of an entry equal one update with the combined patch |
| Dashboard.ComponentPatches | components/DraggableAnnotation.tsx:91-94 | a drag commit replaces exactly both positions and a content commit exactly the content |
| Dashboard.UpdateAnnotation | components/TradeDashboard.tsx:615-619 | length and order are kept; entries with the id are merged with the patch and all others stay identical |
| Dashboard.UpdateKeepsIds | components/TradeDashboard.tsx:615-619 | a patch without an id keeps every entry's id, so ids stay unique; updating an absent id changes nothing |
| Dashboard.TradeDashboard.constructor | components/TradeDashboard.tsx:569-572 | the dashboard opens on the dashboard view for the trade account, with annotation mode off and the default annotations |
| Dashboard.TradeDashboard.SelectRole | components/TradeDashboard.tsx:630 | a role button selects that account |
| Dashboard.TradeDashboard.SelectView | components/TradeDashboard.tsx:783 | a navigation click selects that view |
| Dashboard.TradeDashboard.ToggleDevMode | components/TradeDashboard.tsx:640 | the switch flips annotation mode |
| Dashboard.TradeDashboard.RedirectGeneral | components/TradeDashboard.tsx:580-584 | the effect sets the view to the redirected view for the current account |
| Dashboard.TradeDashboard.HandleAddAnnotation | components/TradeDashboard.tsx:587-597 | the list becomes the old list with the new blank entry |
| Dashboard.TradeDashboard.HandleDeleteAnnotation | components/TradeDashboard.tsx:599-601 | the list becomes the old list without the entries with that id |
| Dashboard.TradeDashboard.HandleDuplicateAnnotation | components/TradeDashboard.tsx:603-613 | the list becomes the old list with the offset copy |
| Dashboard.TradeDashboard.HandleUpdateAnnotation | components/TradeDashboard.tsx:615-619 | the list becomes the old list with the matching entries merged |
| Dashboard.SwitchToGeneral | components/TradeDashboard.tsx:576-584 | switching to the general account on the dashboard view and running the effect lands on settings, and a page renders |

## Left out

- Timers, promise sequencing, the `isProcessing` flag, `window.scrollTo` and console logging. Each handler is modelled as one atomic step with its net effect.
- The submission service is taken to always succeed, and is not modelled beyond that.
- Browser storage and JSON. The draft store is a map from email to form. The `trade_draft_` key prefix is injective in the email, and serialisation is treated as an identity round trip.
- `Date.now()`. New annotation ids are parameters.
- The browser's event order is fixed by hand in the gesture methods: header mousedown, then the text area's blur (while editing), then release, then the button's click. Focus handling itself is not modelled.
- The `window` listeners for mouse move and release are not modelled. Their attachment and detachment only forward events to the drag state machine, and the model drives that machine directly.
- The optional callbacks of the annotation component are not modelled as absent. The dashboard always supplies them, so every commit is returned as a value.
- The contents of `DEFAULT_ANNOTATIONS` and the template texts are parameters.
- Annotations.DraggableAnnotation.GetPath: returns the curve's three points, not the SVG path string built from them.
- Dashboard.ProgressPercent: computed over exact reals, not IEEE doubles, so floating-point rounding is not modelled.
- Spend amounts and coordinates are unbounded integers. Fractional pointer coordinates are not modelled.
- Presentation is not modelled:
  - rendering, the sidebar markup, and which sidebar entries a general customer sees;
  - the two-value progress bar of the wizard (`TradeForm.tsx:198`);
  - the static views and tables;
  - the invite flow and its timer, copying to the clipboard, and locale number formatting;
  - the input wrapper components;
  - the markdown-style highlighting of annotation text.
- Browser form validation is not modelled. The inputs carry `required` and the form has no `noValidate`, so in a browser the native check blocks the submit event whenever a required input is empty. `HandleSubmit`'s failure branch is therefore reachable in a browser only for conditions the markup does not mark required.
- `ROLES_DATA[currentRole]` is looked up by string in the source. The model uses an enum, so an unknown role cannot occur. The role buttons only offer the four keys.
