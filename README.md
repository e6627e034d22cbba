# Kitchen Rush: a verified model of the game's logic

Kitchen Rush is a pygame restaurant game. Customers arrive in groups, sit at
tables, wait for their orders, eat, tip and leave. The player's money, the
wall clock, the restaurants, the staff and a few reusable interface pieces
form the bookkeeping around that. This project models the game's logic in
Dafny and proves what that logic promises. Rendering is not modelled.

One module per source file:

- `Orders` (order.dfy): an order's progress as a small state machine, and its
  `str` form, whose dish name and status can be read back.
- `Menu` (menu.dfy): the dish record, its default arguments, the five-dish
  menu, and the `"<name> - $<price>"` label.
- `Customers` (customers.dfy): the customer lifecycle (waiting, eating, done,
  left), abandonment once patience runs out, and the tip, doubled for a Boss.
  The three customer classes are one class with a `kind`.
- `Furniture` (furniture.dfy): tables and chairs. A table seats at most its
  capacity and occupies one chair per seated customer. It ticks its customers
  and clears itself when all of them have left or are done.
- `Service` (phase_service.dfy): the service phase. It sets up four tables and
  spawns a group every five seconds. Members get consecutive ids, groups are
  seated first-fit, and every table is ticked each frame. Nothing moves while
  an overlay window is open.
- `Hud` (hud.dfy): money with a spend that refuses to overdraw, and the wall
  clock with its 12:00 to 00:00 display.
- `Restaurants` (restaurant.dfy): the staff list, which never holds
  duplicates; the ingredient stock; money; and the day counter.
- `Players` (player.dfy): a profile's restaurants and the active one.
- `Employees` (employees.dfy): the base fields, `upgrade`, and the fields
  each role derives from the `level` argument.
- `Scrollbar` (scrollbar.dfy): the bar height, the dragging, the clamp to the
  track, and the conversion between bar position and content offset.
- `Popups` (popup.dfy): the animated popup. It eases toward its target, snaps
  within half a pixel and fades its background, clamped to `[0, max_alpha]`.
- `Calendars` (calendar.dfy): the calendar popup. It lays out the day grid,
  navigates between months without leaving the year, and ignores clicks while
  it is busy.
- `Splash` (splash.dfy): the four-stage splash screen. Its stages only move
  forward.
- `Dna` (dna.dfy): the DNA demo. It cuts a DNA string into three-base genes
  and expresses each base as an instruction.
- `Numeric`, `Text`, `Seqs` and `Wrappers`: helpers.
  - `Numeric` holds Python's `int()` truncation of a float (`Trunc`), min,
    max and clamp, and the linear approach `v + (t - v) * min(step, 1)`.
  - `Text` holds `str(n)` and `{n:02}`, with a parser that inverts them.
  - `Seqs` holds a first-occurrence search and distinctness.
  - `Wrappers` holds `Option`.

State that the game changes in place is kept in classes:

- `Order`, `Customer`, `Table`, `PhaseService`, `Money` and `Clock`;
- `Restaurant`, `Player` and `Employee`;
- `UIScrollbar`, `AnimatedPopup`, `Calendar` and `SplashScreen`.

Each method states its whole new state, usually through a function of the old
state. The properties are proved about those functions, and invariants
(`Valid`) are preserved.

Other conventions:

- Every random draw is a parameter, with a precondition for its range:
  - `random.choice` of a dish or of a group size;
  - `random.choices` of a customer kind;
  - `random.uniform` of a patience;
  - the bases of `criar_dna`.
- Identifiers and times read from the system are parameters: `uuid4`, `datetime.now` and `calendar.monthrange`. Each reading is its own parameter. A new profile reads the clock once for itself and once more inside its first restaurant, so `Players.Player.constructor` takes `now` and `restaurantNow`.
- Python floats are modelled as mathematical reals. `int(x)` is modelled as
  truncation toward zero.

## Model

| member | source | states |
|---|---|---|
| Orders.Order.constructor | core/assets/order.py:8-12 | A new order is for the menu dish that was drawn, is waiting, and has progress 0. |
| Orders.Advance | core/assets/order.py:14-18 | The status only moves from preparing to ready. It is ready afterwards exactly when it was ready before, or was preparing and the new progress reaches 100. |
| Orders.Order.Update | core/assets/order.py:14-18 | The order's new status and progress are exactly one `Advance` step of the old ones. |
| Orders.AdvanceStep | core/assets/order.py:14-18 | Outside `preparing` nothing changes. While preparing, progress grows by exactly dt * 100 / prep_time, and the order becomes ready exactly when progress reaches 100. |
| Orders.AdvanceNonDecreasing | core/assets/order.py:16 | For a positive preparation time and dt >= 0, progress never decreases. |
| Orders.ProgressNotClamped | core/assets/order.py:16-18 | Progress is not clamped: a 4-second dish at 90, advanced by one second, is ready at 115. |
| Orders.ReadyIsFrozen | core/assets/order.py:15 | Once an order is ready, any number of further updates leaves it unchanged. |
| Orders.PreparationRun | core/assets/order.py:14-18 | Over frames of non-negative length, the order becomes ready exactly when start + total time * 100 / prep_time reaches 100. Until then, progress is exactly that sum. |
| Orders.DescribeRoundTrip | core/assets/order.py:20-21 | `"<name> (<status>)"` determines both the dish name and the status, whatever the name contains. |
| Orders.Order.ToString | core/assets/order.py:20-21 | The text of an order parses back to its dish name and status. |
| Menu.DishWithDefaults | core/assets/menu.py:8-12 | A dish built from a name alone keeps that name, and its default difficulty and preparation time make it preparable: a positive prep time and a difficulty in 1..5. |
| Menu.MenuWellFormed | core/assets/menu.py:19-25 | The menu has five dishes. Each has a positive prep time, a difficulty in 1..5 and a positive price. |
| Menu.Label | core/assets/menu.py:14-15 | `str(dish)` starts with the dish name, and parsing the text after its last '$' gives back the price, whatever the name contains. |
| Menu.LabelRoundTrip | core/assets/menu.py:14-15 | For any name and price, the text `name + " - $" + str(price)` starts with the name, and its last '$' is followed by exactly the price's digits. |
| Customers.Customer.constructor | core/assets/customers.py:9-14 | A new customer has the given kind, id and patience, is waiting with timer 0 and satisfaction 1.0, and orders the dish drawn. |
| Customers.Customer.Update | core/assets/customers.py:16-21 | The new state is one `Tick` of the old one, and the order does not change. |
| Customers.TickStep | core/assets/customers.py:16-21 | Only a waiting customer changes. Its timer grows by dt. It leaves, with satisfaction 0, exactly when the timer reaches its patience. Satisfaction stays within [0, 1]. |
| Customers.NotWaitingIsFrozen | core/assets/customers.py:17 | A customer who is eating, done or gone is untouched by any number of updates. |
| Customers.AbandonmentRun | core/assets/customers.py:16-21 | A waiting customer who is never served leaves exactly when the total time waited reaches the patience. Otherwise its timer is that total. |
| Customers.AbandonmentExample | core/assets/customers.py:18-21 | With patience 10, a customer is still waiting after 9.9 s and has left, with satisfaction 0, after 10.1 s. |
| Customers.Customer.Serve | core/assets/customers.py:23-25 | From any status, `serve` makes the customer eating and resets the timer to 0. |
| Customers.FinishedSatisfaction | core/assets/customers.py:27-29 | Because max_patience is a copy of patience, `finish` always sets satisfaction to exactly 1.0. |
| Customers.Customer.Finish | core/assets/customers.py:27-29 | From any status, `finish` makes the customer done with satisfaction 1.0. The tip is then the full price, or twice it for a Boss. |
| Customers.Tip | core/assets/customers.py:31-32 | For a non-negative product, the tip is the whole part of price * satisfaction * multiplier, where the multiplier is 2.0 for a Boss (customers.py:85-88) and 1 otherwise. |
| Customers.TipBounds | core/assets/customers.py:31-32 | For a non-negative price and a satisfaction in [0, 1], the tip lies between 0 and the price (twice the price for a Boss). |
| Customers.TipMonotone | core/assets/customers.py:31-32 | A more satisfied customer never tips less. |
| Customers.FullTip | core/assets/customers.py:85-88 | At satisfaction 1.0, a Common or Impatient customer tips the price and a Boss tips twice the price. |
| Customers.Customer.GetTip | core/assets/customers.py:31-32 | A valid customer's tip lies between 0 and the price times the kind's multiplier. |
| Furniture.ChairCount | core/assets/furniture.py:55 | A table has min(capacity, 6) chairs, never more than 6, and none for a capacity <= 0. |
| Furniture.Layout | core/assets/furniture.py:38-61 | The chairs face the directions topleft ... bottomright in order, one per chair, each free. |
| Furniture.Table.GenerateChairs | core/assets/furniture.py:38-61 | The loop builds exactly the bare `Layout` of the table. |
| Furniture.Table.IsAvailable | core/assets/furniture.py:63-64 | A table is available exactly when no customer is seated at it. |
| Furniture.Table.constructor | core/assets/furniture.py:7-36 | A new table is empty, keeps its invariant, and shows its bare chair layout. |
| Furniture.Table.SeatCustomers | core/assets/furniture.py:66-72 | It succeeds exactly when the group fits the capacity and the table is empty. On success the table holds the group and exactly its first chairs are occupied. On failure nothing changes. The invariant is kept, so no more than capacity customers are ever seated. |
| Furniture.Table.Update | core/assets/furniture.py:74-80 | Every seated customer is ticked exactly once. The table is then cleared if all of them have left or are done, which an empty table always is. |
| Furniture.Table.Clear | core/assets/furniture.py:82-86 | Nobody is seated and every chair is free. |
| Service.Ids | core/states/phase_service.py:179 | A group of n gets the ids start, start+1, ..., start+n-1. |
| Service.IdsConcat | core/states/phase_service.py:179-180 | Consecutive blocks of ids continue one run, so the ids of a session are strictly increasing and never reused. |
| Service.FirstFit | core/states/phase_service.py:182-185 | The index chosen is that of a table that is free and large enough, and every earlier table is not. If there is none, the index is past the end. |
| Service.MakeTables | core/states/phase_service.py:73-81 | There are four distinct tables, with positions and capacities (251,150,2), (569,150,4), (223,350,1) and (600,350,6). Each is empty and shows its bare chair layout. |
| Service.PhaseService.constructor | core/states/phase_service.py:73-86 | The service starts with those tables, customer id 1, spawn timer 0 and spawn delay 5, and its invariant holds. |
| Service.FirstFitTable | core/states/phase_service.py:182-183 | The search loop returns exactly the `FirstFit` index. |
| Service.CreateRandomClient | core/states/phase_service.py:161-172 | The customer has the drawn kind, patience and dish, and has just arrived. |
| Service.CreateGroup | core/states/phase_service.py:178-179 | The members are distinct, fresh, have the ids first, first+1, ..., and have just arrived. |
| Service.SeatFirstFit | core/states/phase_service.py:182-185 | The group sits at the first-fit table and no other table changes. If none fits, no table changes. The dining-room invariant is kept. |
| Service.SpawnInto | core/states/phase_service.py:178-185 | The members are fresh and distinct, carry the consecutive ids and have just arrived. They sit at the first-fit table, every other table keeps what it held, and the dining-room invariant is kept. |
| Service.PhaseService.SpawnCustomerGroup | core/states/phase_service.py:174-185 | The counter moves past the group whether or not the group is seated. The issued ids stay exactly 1..customer_id-1. The group sits first-fit or is dropped with every table unchanged. |
| Service.TickTables | core/states/phase_service.py:202-203 | Every table is ticked, as in `Table.Update`, and nobody else changes. |
| Service.TickTable | core/states/phase_service.py:202-203 | One round of the table loop ticks table i alone. |
| Service.PhaseService.StepSpawnTimer | core/states/phase_service.py:197-200 | The spawn timer accumulates dt. A spawn is due exactly when it reaches the delay, and the timer then goes back to 0, not to the remainder. |
| Service.PhaseService.Issue | core/states/phase_service.py:180 | customer_id advances by the group size, and the issued ids stay consecutive. |
| Service.PhaseService.SpawnPart | core/states/phase_service.py:197-200 | At most one group spawns per frame, exactly when the timer is due. |
| Service.PhaseService.Simulate | core/states/phase_service.py:197-203 | Spawning happens before the tables are ticked. The table that has just received a group ticks its newcomers too. |
| Service.PhaseService.Update | core/states/phase_service.py:187-203 | While `paused` (an overlay window is open), nothing changes. Otherwise the clock advances, capped at the end of the day, then the spawn step runs, then every table is ticked. |
| Service.SeatAtStates | core/states/phase_service.py:182-185 | Seating lists nobody new except the group, and changes the recorded states only at the chosen table. |
| Hud.Money.constructor | core/assets/hud.py:18 | The money starts at the configured 100. |
| Hud.Money.Add | core/assets/hud.py:20-21 | The amount grows by exactly the value. |
| Hud.Money.Spend | core/assets/hud.py:23-27 | It pays if and only if the funds cover the value, and otherwise leaves the amount unchanged. A non-negative amount never goes negative. |
| Hud.Clock.constructor | core/assets/hud.py:43-44 | The clock starts at 0 elapsed seconds of a 720-second day. |
| Hud.Clock.Update | core/assets/hud.py:46-49 | The elapsed time grows by dt but is capped at the 720-second day. For dt >= 0 it never decreases. |
| Hud.ClockFace | core/assets/hud.py:56-64 | Minutes are in 0..59, and during the day the hour is 12..23 or 0. Hour and minute together encode the in-game minute exactly. |
| Hud.DayBoundaries | core/assets/hud.py:56-67 | The clock shows 12:00 at the start, 18:00 half-way through, and 00:00 at the end. |
| Hud.TimeText | core/assets/hud.py:67 | For an hour and a minute in 0..99, the text is five characters with ':' in the middle, and the two digits on each side read back as the hour and the minute. |
| Hud.Clock.TimeString | core/assets/hud.py:56-67 | During the day the clock text is "HH:MM", whose two halves read back as `ClockFace`'s hour and minute. |
| Restaurants.Restaurant.constructor | core/assets/restaurant.py:11-35 | A new restaurant is `Opened`: it is valid, on day 1, with money 0, reputation 3.0, nothing owned, nobody hired, no events and zero statistics. |
| Restaurants.Hired | core/assets/restaurant.py:37-40 | The id is appended only if it is absent. The staff is the same set plus the id, and stays free of duplicates. |
| Restaurants.Fired | core/assets/restaurant.py:42-45 | The first occurrence of the id is removed, if there is one, and every other entry keeps its order. |
| Restaurants.FiredDistinct | core/assets/restaurant.py:42-45 | On a list without duplicates, firing keeps the list duplicate-free and the fired id is gone. |
| Restaurants.HireThenFire | core/assets/restaurant.py:37-45 | Hiring a new id and then firing it restores the staff exactly. |
| Restaurants.HireIdempotent | core/assets/restaurant.py:39 | Hiring the same id twice changes nothing more than hiring it once. |
| Restaurants.Restaurant.HireEmployee | core/assets/restaurant.py:37-40 | The staff becomes `Hired`, and the no-duplicates invariant is kept. |
| Restaurants.Restaurant.FireEmployee | core/assets/restaurant.py:42-45 | The staff becomes `Fired`, and the invariant is kept with the id gone. |
| Restaurants.Restocked | core/assets/restaurant.py:47-49 | The amount of the ingredient becomes its old amount (0 if absent) plus the quantity, which is unchecked. Every other ingredient keeps its amount. |
| Restaurants.RestockAdds | core/assets/restaurant.py:47-49 | Two updates of one ingredient add up to a single update. |
| Restaurants.RestockUndone | core/assets/restaurant.py:47-49 | Consuming what was just added restores every amount. |
| Restaurants.Restaurant.UpdateIngredient | core/assets/restaurant.py:47-49 | The stock becomes `Restocked`. |
| Restaurants.Restaurant.AddMoney | core/assets/restaurant.py:51-53 | The money grows by exactly the value. |
| Restaurants.Restaurant.AdvanceDay | core/assets/restaurant.py:55-57 | The day grows by exactly 1. |
| Players.Active | core/assets/player.py:35-40 | The result exists if and only if some restaurant has the id. When it exists, it is a restaurant of the list with that id. |
| Players.ActiveAfterAdd | core/assets/player.py:42-46 | After a restaurant with a fresh id is appended, it is the one found under its id, and earlier restaurants are still found under theirs. |
| Players.Player.constructor | core/assets/player.py:13-33 | A new profile has exactly one restaurant, which is freshly `Opened` with the given name and is the active one. The profile and the restaurant each keep their own reading of the clock. The settings are the defaults. |
| Players.Player.GetActiveRestaurant | core/assets/player.py:35-40 | The loop returns the first restaurant with the active id, which exists whenever the profile is valid. |
| Players.Player.AddRestaurant | core/assets/player.py:42-46 | A freshly `Opened` restaurant with the given name is appended, earlier ones are unchanged, and the new one becomes active. |
| Players.Player.SwitchRestaurant | core/assets/player.py:48-51 | The active id changes if and only if some restaurant has the requested id. The profile stays valid. |
| Employees.Employee.constructor | core/assets/employees.py:8-15 | Level is 1 whatever the argument. Experience is 0, agility 3, day off 5 and salary 800. The role's fields come from the argument. |
| Employees.Employee.Upgrade | core/assets/employees.py:17-18 | The level grows by exactly 1, and nothing else changes. |
| Employees.TraitsFor | core/assets/employees.py:23-49 | Each role gets exactly its own kind of fields. |
| Employees.TraitsGrow | core/assets/employees.py:33-49 | A larger level argument never gives weaker fields, and strictly changes them except for waiters. |
| Employees.CookPrecisionFromArgument | core/assets/employees.py:33-49 | A cook created with level 3 has precision 1.6, unlike a level-1 cook. A level-1 manager has efficiency 1.25 and max_staff 3. A level-1 chef has creativity 1.3 and quality_bonus 0.2. |
| Scrollbar.BarHeight | core/gui/ui_scrollbar.py:46-49 | When the content fits, the bar is the whole track. Otherwise it is at least 40 and no taller than max(40, view height). |
| Scrollbar.UIScrollbar.constructor | core/gui/ui_scrollbar.py:27-55 | The bar starts at the top of its track, at the computed height. `hover_width` is the truncation of width * hover_scale. |
| Scrollbar.UIScrollbar.HandleEvent | core/gui/ui_scrollbar.py:57-67 | A press on the bar starts a drag and records the grab offset. A release always ends it. A motion while dragging moves the bar, clamped to the track. Nothing else changes anything. The bar stays in its track. |
| Scrollbar.UIScrollbar.Update | core/gui/ui_scrollbar.py:69-79 | The width eases toward the hover width or the default width. The bar is re-centred and stays in its track. |
| Scrollbar.OffsetFor | core/gui/ui_scrollbar.py:85-86 | For a bar within its track, the offset lies within the hidden content. |
| Scrollbar.PositionFor | core/gui/ui_scrollbar.py:93-94 | For an offset within the hidden content, the position lies within the track. |
| Scrollbar.OffsetRoundTrip | core/gui/ui_scrollbar.py:81-94 | Setting an offset and reading it back never gives more than was set, and loses less than one pixel's worth of content plus one. |
| Scrollbar.UIScrollbar.GetScrollOffset | core/gui/ui_scrollbar.py:81-86 | The offset is 0 when the bar fills its track. Otherwise, for a bar in its track, it lies in [0, content - view]. |
| Scrollbar.UIScrollbar.SetScrollOffset | core/gui/ui_scrollbar.py:88-94 | When the content fits, the bar goes to the top. Otherwise it goes to the position for the offset, which stays in the track for an offset within range. |
| Numeric.Trunc | core/assets/customers.py:32 | `int(x)` truncates toward zero: it stays within 1 of x, on the side of 0. |
| Numeric.Approach | core/effects/animated_popup.py:106 | For a non-negative step, the eased value lies between the start and the target, and a full step lands on the target. |
| Popups.AnimatedPopup.constructor | core/effects/animated_popup.py:47-70 | current_y = start_y = screen_height + y_offset and target_y = screen_height // 2. Both flags are false and the background alpha is 0. |
| Popups.AnimatedPopup.StartClosing | core/effects/animated_popup.py:79-85 | The popup is closing, no longer done, and headed back to start_y. The invariant is kept. |
| Popups.Moved | core/effects/animated_popup.py:106-114 | The position lands exactly on the target if and only if it came within 0.5 of it. It never overshoots for dt >= 0, and a popup already within 0.5 lands. |
| Popups.MovedDistance | core/effects/animated_popup.py:106 | Until the popup settles, each frame leaves it (1 - step) times as far from its target. |
| Popups.Faded | core/effects/animated_popup.py:119-124 | The background alpha stays in [0, max_alpha]. It rises while opening and falls while closing, and reaches the bound when the fade step covers the range. |
| Popups.AnimatedPopup.Update | core/effects/animated_popup.py:99-125 | The new position is `Moved`. `closed` (the `on_close` call) holds exactly when a closing popup settles. An opening popup that settles becomes done. rect.centery is the truncated position, and the alpha is `Faded`. The invariant is kept. |
| Calendars.Cell | core/states/calendar.py:104-106 | Day d sits at column (first_weekday + d - 1) mod 7 and row (first_weekday + d - 1) // 7. With first_weekday in 0..6 and up to 31 days, the row is within 0..5. |
| Calendars.CellOrder | core/states/calendar.py:105-106 | A later day is in a later row, or in the same row and a later column. |
| Calendars.DayGrid | core/states/calendar.py:104-121 | One button per day of the month, in day order. The i-th button sits at column (first_weekday + i) mod 7 and row (first_weekday + i) // 7 of the day's cell, and is labelled `str(i + 1)`. |
| Calendars.GridLabels | core/states/calendar.py:104-121 | The grid has one button per day, in day order, labelled with the day's number. |
| Calendars.GridApart | core/states/calendar.py:105-109 | Distinct days are placed at distinct positions. |
| Calendars.GridInBox | core/states/calendar.py:101-109 | Every button lies within the 7-by-6 box of cells starting at (168, 195). |
| Calendars.Calendar.constructor | core/states/calendar.py:17-85 | The calendar opens on the given month, not sliding, titled with the month's name, with the popup in its initial state and the grid of that month. |
| Calendars.Calendar.CreateDayButtons | core/states/calendar.py:87-121 | The old buttons are discarded, and the buttons become exactly the grid of the month. |
| Calendars.Calendar.StartTransition | core/states/calendar.py:208-216 | It does nothing if the month it leads to is outside 0..11. Otherwise a slide that way starts with progress 0. |
| Calendars.Calendar.Update | core/states/calendar.py:123-149 | The popup steps first. A slide then advances only while the popup is open and not closing. A completed slide ends on clamp(month + direction, 0, 11), with that month's title and grid. The month stays in 0..11. |
| Calendars.Calendar.HandleEvent | core/states/calendar.py:191-200 | Clicks count only while the popup is open, not closing and not sliding. The close button starts closing, and otherwise the arrows start a slide. Anything else changes nothing. |
| Splash.Next | core/states/splash_screen.py:50-80 | Each frame keeps the stage or moves to the next one. Each stage moves its value up to full opacity, up to two seconds, or down to 0. Full opacity is set exactly at 255. Entering `wait` resets the timer. |
| Splash.NextSane | core/states/splash_screen.py:56-80 | Frames of non-negative length keep the per-stage invariant. In the fade-out both layers reach 0 together. |
| Splash.RunForward | core/states/splash_screen.py:56-80 | Over any run of frames the stage never goes back. The invariant holds from the start on. |
| Splash.SplashScreen.constructor | core/states/splash_screen.py:23-48 | The splash starts in `fade_in_screen` with both alphas and the timer at 0. |
| Splash.SplashScreen.Update | core/states/splash_screen.py:50-84 | The new state is `Next` of the old one. `finished` (the change to the main menu) holds exactly when the fade-out ends. |
| Dna.BasesHaveInstructions | concepts/files/test.py:17-22 | Exactly the four bases have an instruction. |
| Dna.CreateDna | concepts/files/test.py:6-8 | `criar_dna(n)` has length max(n, 0) and consists of the drawn bases. |
| Dna.Genes | concepts/files/test.py:38 | There are ceil(len/3) genes. Each is the next three-base slice, and only the last one may be shorter. |
| Dna.GenesJoin | concepts/files/test.py:38 | The genes joined back together are the DNA: nothing is lost or reordered. |
| Dna.Express | concepts/files/test.py:15-23 | One instruction per base, in order. Expression fails (the dictionary lookup raises) if and only if some character is not a base. |
| Dna.GenesCover | concepts/files/test.py:38-39 | Every gene of a DNA string can be expressed if and only if the string consists of bases. |
| Dna.Proteins | concepts/files/test.py:39 | One protein per gene, in order, holding that gene's expression, and `None` if and only if some gene cannot be expressed. |
| Dna.NewCell | concepts/files/test.py:36-39 | A cell exists if and only if the DNA consists of bases. Its genes are the three-base slices, and there is one protein per gene holding that gene's expression. |
| Dna.NewTissue | concepts/files/test.py:47-49 | `Tecido(q)` has q cells, each grown from nine drawn bases, with exactly three genes of three bases and three proteins of three instructions. |
| Text.IntToStringRoundTrip | core/assets/menu.py:15 | `str(n)` parses back to n for every integer. |
| Text.Pad2 | core/assets/hud.py:67 | `{n:02}` of 0..99 is two decimal digits that read back as n. |

## Left out

- Rendering, fonts, images, sounds and surfaces: every `render`/`draw` method, `set_alpha`, the chair sprites, shadows and rects. Only the positions the logic computes are modelled.
- The overlay windows, cards and buttons of the service phase (`phase_service.py:88-159`, `205-206`), and the `UIButton` updates and event handlers inside the calendar (`calendar.py:150-155`, `202-206`). Button logic polls the mouse and is cosmetic.
- The calendar's slide easing and the page rectangles (`calendar.py:130-136`, `141-148`, `218-224`), `set_content_surface` (`animated_popup.py:90-97`), and the base popup's `handle_event`, which does nothing.
- `on_close`: the base popup raises `NotImplementedError`, and the calendar sets `game.calendar = None`. The model returns `closed` instead and leaves the reset to the caller.
- The splash screen's `handle_event` does nothing and has no member. Its switch to the main menu is the `finished` result.
- `Order.customer`: the back-reference from an order to its customer is never read by the logic and is not modelled.
- `Customer.get_tip` of the base class and of a Boss are one function of the kind. `Employee` roles are one class with a `role`.
- `Employee.get_info` is string formatting of a name that the base class never stores, so it is not modelled.
- `Player.to_dict`, `save_to_file` and `load_from_file`: JSON file I/O.
- `Orgao` and `SerVivo` of the DNA demo only nest tissues. `agir`, `viver`, `funcionar`, `operar` and `existir` are printing loops.
- The weights of `random.choices` (70/25/5) and the uniform distributions: only the ranges of the draws are modelled, not their probabilities.
- Floating point: times, alphas and ratios are reals, with no IEEE rounding. `Trunc` is Python's `int()` on a float.
- Furniture.Table.SeatCustomers: it requires that a group which passes the capacity check fits the chairs, so the `IndexError` the source raises for a capacity above 6 is not modelled. It also requires the group lists nobody twice, which every group the game creates satisfies.
- Service.PhaseService.Update: the money and the overlay windows it draws are not modelled. Only the clock, the spawning and the tables are.
- Furniture.Table.Valid: it does not include each seated customer's own invariant, which the customers keep themselves.
- Calendars.Calendar.Update: `calendar.monthrange` for the new month is given as the parameters `firstWeekday` and `numDays`.
- Calendars.Calendar.constructor: `datetime.now()` is replaced by the parameters `month` and `year`, and `calendar.monthrange` for that month by `firstWeekday` and `numDays`.
- Calendars.Calendar.HandleEvent: a click is given as which of the three buttons it hits. The rectangles' hit tests are not modelled.
- Hud.Clock.TimeString: the clock hand's angle uses `math.cos`/`math.sin` and is not modelled.
- Scrollbar.UIScrollbar.constructor: it requires a non-zero content height whenever the content exceeds the view. The `ZeroDivisionError` the source raises for a content height of 0 with a negative view height (`ui_scrollbar.py:47`) is therefore not modelled.
- Popups.AnimatedPopup.constructor: the default arguments `y_offset=230`, `fade_speed=300`, `move_speed=12.0` and `bg_alpha=180` are required parameters. The constants `Y_OFFSET`, `FADE_SPEED`, `MOVE_SPEED` and `MAX_ALPHA` hold them, and the calendar passes them.
- Scrollbar.UIScrollbar.constructor: the default arguments `width=8` and `hover_scale=1.5` are required parameters. The constants `DEFAULT_WIDTH` and `DEFAULT_HOVER_SCALE` hold them.
- Scrollbar.UIScrollbar.constructor: colours and images are not modelled. `hover_speed` is the constant `HOVER_SPEED`.
