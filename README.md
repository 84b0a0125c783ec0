# Liwisi storefront: cart, category filter, chat widget and assistant client

A Dafny model of the small amount of state and logic inside the Liwisi furniture storefront,
a single-page React shop with an embedded design-assistant chat:

- **Cart** (`app.dfy`, module `App`). The cart is an ordered sequence of lines, each a product
  plus a quantity. Adding a product bumps the line with the same id or appends a new line of
  one unit and opens the cart drawer. Removing an id filters out its line. The total is the sum
  of effective unit price times quantity, where the unit price is `salePrice || price`. The count
  is the sum of quantities. The page state is the class `Storefront`: the cart, the drawer flag
  and the active category. Its methods are proved against the cart functions, and the lemmas
  beside them prove the one-line-per-id invariant, the "nothing else changes" properties and
  the exact change of count and total.
- **Category filter** (`App`). The category list is "All" followed by the catalog's categories,
  de-duplicated in first-seen order. The filtered products are the whole catalog for "All" and
  otherwise the order-preserving selection of the active category.
- **Chat widget** (`aichat.dfy`, module `AIChat`). Its state is whether the window is open, the
  transcript, the input text and whether a reply is pending. `handleSend` awaits the service
  in the middle, so it is split in two steps. `SendStep` is the guard, the user turn, clearing
  the box and setting the pending flag. `ReplyStep` appends one model turn (the reply, or the
  apology flagged as an error) and clears the flag. The class `ChatWidget` holds the fields
  and performs these steps. Over every sequence of events, the transcript is append-only and
  grows by at most one message per event. Starting from the initial state, or from any state of
  that shape, and over every sequence in which a request settles only while one is pending, the
  welcome message stays first and user and model turns alternate. In
  every state, the send button is disabled exactly when the guard of `handleSend` would
  reject the send.
- **Assistant client** (`gemini.dfy`, module `Gemini`). The class `Client` creates its chat
  session lazily, once, and reuses it. The pure functions map each model outcome to the text
  shown: a non-empty reply passes through; empty or missing text gets one fixed sentence; a
  failure gets another. For product insights, the function also strips a leading and a
  trailing double quote when present, at most one of each.
- **Catalog** (`catalog.dfy`, module `Catalog`). The six products of the constant table, with
  their concrete facts: distinct ids, positive prices, sale prices below base prices. Concrete
  lemmas in `App` compute the category list, the "Chairs" selection and a sample cart total.

`seqs.dfy` (module `Seqs`) models the JavaScript array operations the page relies on:
`filter`, `reduce` as a left fold, and `Array.from(new Set(...))`. `text.dfy` (module `Text`)
models `String.prototype.trim`. `types.dfy` (module `Types`) mirrors the record declarations.

The hosted language model is not modelled. Each call to it becomes a `Gemini.Outcome`
parameter: `Ok(text)`, `Missing` (a response without text) or `Failed` (anything thrown). For
the stateless insight call, it is a function from prompt to outcome. How the chat request
settles is the `AIChat.Settlement` parameter of `ReplyStep`.

Details of the code the model keeps:
- A message's role is `user` or `model`.
- The unit price is `salePrice || price`, so a sale price of 0 falls back to the base price.
- While a reply is pending, only the send button is disabled; the input box stays editable.
  The Enter-key path is stopped by the `isTyping` test inside `handleSend`.
- The bumped cart line keeps the product data it already had, because of `{ ...p, quantity }`.
  The newly added product's data does not replace it.
- `handleSend` has a `catch` branch that appends the apology. `sendMessageToGemini` never
  rejects, so with the real service that branch cannot run (`AIChat.ServiceReplyIsNeverError`).
  `ReplyStep` still models it, as written.

## Model

| member | source | states |
|---|---|---|
| `App.AddItem` | App.tsx:16-22 | the cart after `addToCart`: it holds the product's id afterwards, existing lines keep their ids and positions, and it grows by one line exactly when the id was absent |
| `App.RemoveItem` | App.tsx:27 | the cart after `removeFromCart`: no line carries the id afterwards, and it is never longer than before |
| `App.CartTotal` | App.tsx:36 | the `reduce` of effective unit price times quantity over the lines; never negative |
| `App.CartCount` | App.tsx:37 | the `reduce` of quantities over the lines; never negative, and at least the number of lines in a well-formed cart |
| `App.CategoryColumn` | App.tsx:30 | `PRODUCTS.map(p => p.category)`: one entry per product, each the category of the product at the same position |
| `App.Categories` | App.tsx:30 | "All" followed by the de-duplicated category column; it starts with "All" and has at most one entry more than the catalog |
| `App.Filtered` | App.tsx:32-34 | the product grid: never longer than the catalog, and for a category other than "All" every product shown is of that category |
| `AIChat.SendStep` | components/AIChat.tsx:23-29 | `handleSend` up to the `await`: the window is untouched; when anything changes, no reply was pending, exactly one user turn is appended after the old transcript, the input is cleared and a reply becomes pending |
| `AIChat.ReplyStep` | components/AIChat.tsx:31-40 | `handleSend` after the `await`: exactly one model turn is appended after the old transcript: the resolved text with no error flag, or the fixed apology flagged as an error when the request rejected; the pending flag is cleared and the input and window are untouched |
| `AIChat.KeyStep` | components/AIChat.tsx:43-45 | a key press either changes nothing or, for Enter, is the send step |
| `AIChat.Step` | components/AIChat.tsx:23-45 | one event of the widget; only a send or a settlement changes the transcript or the pending flag, and only typing or a send changes the input |
| `Text.Trim` | components/AIChat.tsx:24 | `input.trim()`: never longer than the input, and neither starts nor ends with whitespace |
| `Seqs.Filter` | App.tsx:27 | `xs.filter(keep)`, front to back; never longer than the input |
| `Seqs.Sum` | App.tsx:36-37 | `reduce` with `+` from 0 as a left fold; non-negative whenever every term is |
| `Seqs.Distinct` | App.tsx:30 | `Array.from(new Set(xs))`, values in insertion order; never longer than the input |
| `Seqs.SumAtLeastLength` | App.tsx:37 | whenever every term is at least one, the sum is at least the number of terms |
| `App.Find` | App.tsx:17-18 | `prev.find(p => p.id === product.id)`, whose truth value `AddItem` branches on: it returns a line exactly when some line carries the id (`HasId`), and the line returned is one of the cart's lines with that id |
| `App.FindFirst` | App.tsx:17 | the line `find` returns is the first with the id: no earlier line carries it |
| `App.Bump` | App.tsx:19 | the `map` that bumps the matching line: same length, every line keeps its product data, the lines with the id gain one unit and all others keep their quantity |
| `App.LineTotal` | App.tsx:36 | one line's contribution to the total: never negative, and at least the unit price when the line holds at least one unit |
| `App.AddExisting` | App.tsx:17-19 | adding a product whose id is in a cart with unique ids increments exactly that line by one (the cart is the old one with that single element updated), so every other line and the order are unchanged; the count rises by 1 and the total by that line's unit price |
| `App.AddNew` | App.tsx:21 | adding a product whose id is absent appends one line of quantity 1 at the end; the count rises by 1 and the total by the product's effective price |
| `App.AddPreservesWellFormed` | App.tsx:15-24 | adding keeps "at most one line per id, every quantity at least 1", and afterwards the product's id is in the cart |
| `App.AddRaisesSums` | App.tsx:36-37 | with unique ids, every add raises `cartCount` by exactly one and never lowers `cartTotal`; adding a product not yet in the cart raises the total by exactly its unit price |
| `App.RemoveExisting` | App.tsx:26-28 | removing an id that is in the cart deletes exactly its line, keeps the remaining lines in their order, and lowers the count by that line's quantity and the total by its line total |
| `App.RemoveAbsent` | App.tsx:27 | removing an id that is not in the cart leaves the cart unchanged |
| `App.RemovePreservesWellFormed` | App.tsx:26-28 | removing keeps the cart invariant, and afterwards no line carries the id |
| `App.EffectivePrice` | App.tsx:36 | the unit price charged is the sale price when it is present and nonzero, else the base price |
| `App.EffectivePriceAtMostPrice` | App.tsx:36 | for a product whose sale price is below its base price, the price charged never exceeds the base price, and is strictly below it when a nonzero sale price is present |
| `App.CategoriesShape` | App.tsx:30 | the category list starts with "All"; after it, every catalog category appears, nothing else does, each appears once, and they come in the order of their first appearance in the catalog |
| `App.FilteredShape` | App.tsx:32-34 | for "All" the filter returns the catalog itself; otherwise it returns exactly the catalog products of the active category, and filtering a split catalog gives the two filtered parts in catalog order |
| `App.Storefront.constructor` | App.tsx:11-13 | the page starts with an empty cart, a closed drawer and the "All" filter |
| `App.Storefront.AddToCart` | App.tsx:15-24 | the cart becomes the add of the old cart, the invariant is kept, the header badge rises by one, the total never falls and rises by the product's unit price when the product was new, the drawer is open and the filter is untouched |
| `App.Storefront.RemoveFromCart` | App.tsx:26-28 | the cart becomes the removal of the id from the old cart, the invariant is kept, the id is gone, an absent id changes nothing, removing a present id lowers the badge and never raises the total, and the drawer and filter are untouched |
| `App.Storefront.OpenCart` | App.tsx:41 | the header's cart icon opens the drawer and changes nothing else |
| `App.Storefront.CloseCart` | App.tsx:126 | the backdrop and close buttons close the drawer and change nothing else |
| `App.Storefront.SelectCategory` | App.tsx:59 | a category button sets the active category and changes nothing else, and the grid then shows only products of that category (unless it is "All") |
| `App.CatalogCategories` | App.tsx:30 | for the catalog the category list is All, Living Room, Chairs, Dining, Lighting |
| `App.ChairsFilter` | App.tsx:32-34 | for the catalog, filtering on "Chairs" yields product 2 and then product 5 |
| `App.SampleCartTotal` | App.tsx:36-37 | two Cloud Sofas and one Nordic Oak Dining Table total 1899 * 2 + 899 = 4697 and count 3 units |
| `App.AddAddAddRemove` | App.tsx:15-28 | for any two products with different ids, adding the first twice, adding the second and then removing the first's id leaves exactly one line: the second with quantity 1 |
| `App.AddSofaTwiceThenLounge` | App.tsx:15-28 | on the catalog: adding product 1 twice, adding product 2 and then removing id "1" leaves exactly one line, product 2 with quantity 1 |
| `Seqs.FilterSound` | App.tsx:27 | every element the filter returns comes from the input and passes the test, and every input element that passes the test is returned |
| `Seqs.FilterDropsOne` | App.tsx:27 | when exactly one element fails the test, filtering removes that element and keeps the rest in order |
| `Seqs.FilterConcat` | App.tsx:33 | filtering distributes over concatenation, so the kept elements keep their relative order |
| `Seqs.SumConcat` | App.tsx:36-37 | the left-fold sum over a concatenation is the sum of the two folds |
| `Seqs.DistinctSound` | App.tsx:30 | de-duplication through a `Set` keeps every value of the input, adds no other, and lists each value once |
| `Seqs.DistinctFirstSeenOrder` | App.tsx:30 | values come out of the `Set` in the order of their first occurrence |
| `Catalog.Products` | constants.ts:5-64 | the `PRODUCTS` table: the six products `CloudSofa`, `EamesLounge`, `OakDiningTable`, `FloorLamp`, `AccentChair` and `CoffeeTable`, with ids "1" to "6", in that order |
| `Catalog.GeminiModel` | constants.ts:3 | `GEMINI_MODEL`, the model name every chat session is created with |
| `Catalog.SystemInstruction` | constants.ts:66-74 | `SYSTEM_INSTRUCTION`, the persona text every chat session is created with |
| `Catalog.CatalogIdsDistinct` | constants.ts:5-64 | the catalog holds six products and its id column has no duplicates |
| `Catalog.CatalogPricingSound` | constants.ts:5-64 | every base price is positive and every present sale price is strictly below its base price |
| `Text.IsWhitespace` | components/AIChat.tsx:24 | the characters `trim` removes: ECMAScript white space and line terminators, all of which lie in the Basic Multilingual Plane |
| `Text.TrimStart` | components/AIChat.tsx:24 | leading trim drops whitespace only and leaves a suffix that does not start with whitespace |
| `Text.TrimEnd` | components/AIChat.tsx:24 | trailing trim drops whitespace only and leaves a prefix that does not end with whitespace |
| `Text.TrimEmptyIffBlank` | components/AIChat.tsx:24 | the trimmed input is empty exactly when the input consists only of whitespace |
| `Text.TrimIsInfix` | components/AIChat.tsx:24 | the trimmed text is a contiguous piece of the input |
| `AIChat.SendDisabled` | components/AIChat.tsx:112 | the send button is disabled exactly when the input is all whitespace (or empty) or a reply is pending |
| `AIChat.DisabledIffSendIgnored` | components/AIChat.tsx:112 | the send button is disabled exactly when `handleSend` would leave the state unchanged |
| `AIChat.SendAccepted` | components/AIChat.tsx:26-29 | an accepted send appends one user turn carrying the untrimmed input, clears the input, sets the pending flag and leaves the window as it was |
| `AIChat.OnlyEnterSends` | components/AIChat.tsx:43-45 | a key other than Enter changes nothing; Enter behaves like the send button |
| `AIChat.StepAppendOnly` | components/AIChat.tsx:27-37 | every event keeps the transcript so far and adds at most one message |
| `AIChat.RunAppendOnly` | components/AIChat.tsx:23-41 | along any sequence of events, earlier messages are never altered or removed, and the transcript grows by at most one message per event |
| `AIChat.StepKeepsConversation` | components/AIChat.tsx:23-41 | an event (a settlement only while a reply is pending) keeps the shape: welcome first, then alternating user and model turns, and a reply pending exactly when the last turn is the user's |
| `AIChat.RunKeepsConversation` | components/AIChat.tsx:23-41 | every feasible sequence of events keeps that conversation shape |
| `AIChat.InitialState` | components/AIChat.tsx:7-12 | the widget starts closed, with an empty input and only the welcome turn, which is already a well-shaped conversation |
| `AIChat.ModelTurn` | components/AIChat.tsx:33-36 | the model turn added on settlement: its role is the model's; a resolved reply gives its text with no error flag; a rejection gives the fixed apology flagged as an error, and only a rejection sets the flag |
| `AIChat.InitialIsConversation` | components/AIChat.tsx:8-10 | the transcript starts as exactly the model's welcome message, with no reply pending |
| `AIChat.ServiceReplyIsNeverError` | components/AIChat.tsx:32-34 | with the reply of `sendMessageToGemini`, completion appends one model turn with that non-empty text and no error flag, and clears the pending flag |
| `AIChat.ChatWidget.constructor` | components/AIChat.tsx:7-12 | the widget starts closed, with only the welcome turn, an empty input and no reply pending |
| `AIChat.ChatWidget.SetInput` | components/AIChat.tsx:105 | typing replaces the input text and nothing else |
| `AIChat.ChatWidget.BeginSend` | components/AIChat.tsx:23-29 | the send is accepted exactly when the button is enabled; when accepted, the user turn with the old input is appended; when rejected, nothing changes |
| `AIChat.ChatWidget.CompleteSend` | components/AIChat.tsx:31-40 | exactly one model turn is appended (the reply, or the apology flagged as an error) and the pending flag is cleared |
| `AIChat.ChatWidget.HandleKeyPress` | components/AIChat.tsx:43-45 | a key press sends exactly when the key is Enter and the send button is enabled |
| `AIChat.ChatWidget.Toggle` | components/AIChat.tsx:123 | the toggle button flips whether the window is open |
| `AIChat.ChatWidget.Close` | components/AIChat.tsx:68 | the minimise and backup close buttons close the window |
| `Gemini.ReplyText` | services/gemini.ts:21-33 | the chat reply is never empty: non-empty model text is returned unchanged, empty or missing text gives the fixed "couldn't generate a response" sentence, and any failure gives the fixed "trouble connecting" sentence |
| `Gemini.ChatSession.constructor` | services/gemini.ts:11-16 | a new session is bound to the given model and instruction and has no turns |
| `Gemini.Client.constructor` | services/gemini.ts:7 | the module starts with no chat session |
| `Gemini.Client.GetChatSession` | services/gemini.ts:9-19 | a session is created, with the fixed model and system instruction, only when none exists; otherwise the existing session is returned and kept |
| `Gemini.Client.SendMessage` | services/gemini.ts:21-33 | the message is submitted unchanged as the next turn of the single session (a session created by this call has the fixed system instruction), and the call resolves with the mapped, non-empty reply |
| `Gemini.SessionIsReused` | services/gemini.ts:9-19 | two calls in a row return the same session object |
| `Gemini.InsightPrompt` | services/gemini.ts:39 | the insight prompt embeds the product name and the description verbatim, each between double quotes, at fixed places of the template |
| `Gemini.StripQuotes` | services/gemini.ts:41 | stripping removes at most one leading and at most one trailing double quote, removes the trailing one exactly when the text still ends with one, and leaves the contiguous rest untouched |
| `Gemini.StripQuotesOfQuoted` | services/gemini.ts:41 | a text wrapped in one pair of double quotes comes back exactly |
| `Gemini.StripQuotesOfUnquoted` | services/gemini.ts:41 | a text that neither starts nor ends with a double quote comes back unchanged |
| `Gemini.InsightText` | services/gemini.ts:41-44 | the insight is never empty: it is the stripped text when that is non-empty, "Experience premium quality." when it is empty or missing, and "Timeless design for your home." on any failure |
| `Gemini.GenerateProductInsight` | services/gemini.ts:35-45 | one stateless model call on the product's prompt yields a non-empty sentence: a fallback or the stripped model text |

## Left out

- Rendering, styling and scrolling are not modelled. This covers all JSX, `scrollIntoView` in the page and the chat window, and the header and hero components with their scroll listener.
- The hosted model SDK is replaced by outcome parameters. This covers the client construction from `process.env.API_KEY`, `chats.create`, `sendMessage`, `generateContent` and `console.error`. The session's `turns` log stands for the provider's context; it records each submitted message whatever the outcome.
- The product card's insight fetch is not modelled: the `Math.random() > 0.7` sampling, the `mounted` flag and the discard of late results. These are nondeterminism and asynchronous cancellation.
- Floating point is left out. This covers `toFixed(2)` for the cart total and the discount badge's rounded percentage. Prices and quantities are unbounded whole numbers.
- The checkout button is left out; it has no behaviour.
- The wording of the system instruction plays no part in any property.
- `Text.TrimStart`: it works on Unicode code points, while JavaScript strings are UTF-16 code units. The whitespace set is that of ECMAScript, so only characters outside the Basic Multilingual Plane (never whitespace) are counted differently.
- Interleavings are handled by the event model. The window may be toggled and the input edited while a reply is pending, but the model does not capture the React batching of updates within one event.
