# Luxe boutique cart store and contact action, in Dafny

This project models two parts of a storefront web application.

- **The client-side cart store** (`contexts/CartContext.tsx`). It holds an ordered list of cart lines `{product, quantity, selectedSize?}` and offers `addToCart`, `removeFromCart`, `updateQuantity`, `clearCart`, `getCartTotal` and `getCartCount`. It loads from the local-storage slot `'luxe-cart'` on mount and writes the whole list back after every change, but only once it has loaded.
- **The contact-form server action** (`lib/actions.ts`, `sendContactEmail`). It runs four checks in order: all four fields present, the e-mail matches `^[^\s@]+@[^\s@]+\.[^\s@]+$`, the mail-service API key is configured, and the send succeeded.

Files:

- `wrappers.dfy`: `Option`, standing for a JavaScript value that may be `undefined`.
- `cart_lines.dfy` (module `CartLines`): the bodies of the `setItems` updaters and the two `reduce` sums, as pure functions on the list of lines.
- `cart_laws.dfy` (module `CartLaws`): what those functions guarantee. This covers how the sums move, key uniqueness, quantities staying at least 1, removal keeping the remaining lines in order, and repeated adds merging into one line.
- `cart_context.dfy` (module `CartContext`): the provider as a class. `items` and `isLoaded` are fields, and browser local storage is a separate `LocalStorage` object. The mount effect and the change effect are methods. Each operation is a method whose postcondition ties the new `items` to the pure function and the new storage contents to `AfterSave`.
- `actions.dfy` (module `Actions`): `sendContactEmail` as a function. The mail service's answer is a `SendOutcome` parameter. The e-mail pattern is modelled three ways: read literally (`RegexMatches`), as a characterisation (`WellFormedAddress`), and as a hand-written checker (`IsValidEmail`). Lemmas prove that all three agree.

Modelling choices:

- Prices and quantities are `int`.
- A missing price counts as 0, following `metadata?.price || 0`.
- A line's key is `(product.id, selectedSize)`, compared strictly, so an absent size matches only an absent size.
- JSON is abstract. A slot holds a `Snapshot`: `Serialized(lines)`, `Unparsable`, or `EmptyText`. `EmptyText` is the empty string, which the load step skips because it is falsy.
- `Stringify`/`Parse` round-trip by construction.
- Two behaviours of the source are worth pointing out:
  - When a line already exists, `addToCart` keeps that line's stored product record and adds only the quantity, so the total grows by the stored price (`AddToCartTotal`).
  - On mount the change effect runs once `isLoaded` flips. An unparsable snapshot is therefore overwritten with the (empty) current list (`CartProvider.Mount`).

## Model

Definitions without a contract of their own, and the source they render (each is pinned down by the members in the table that use it):

- `Actions.RegexMatches`: the literal pattern `^[^\s@]+@[^\s@]+\.[^\s@]+$` (lib/actions.ts:30), with `Actions.IsSpace` as ECMAScript `\s` and `Actions.Plain` as `[^\s@]`.
- `Actions.IsValidEmail`: the `emailRegex.test(formData.email)` the action runs (lib/actions.ts:31); it equals `RegexMatches` by `Actions.CheckerMatchesRegex`.
- `Actions.FieldsPresent`: the four `!formData.x` tests (lib/actions.ts:22).
- `Actions.Configured`: `!process.env.RESEND_API_KEY` negated (lib/actions.ts:39).
- `Actions.RequestFor`: the arguments of the send call (lib/actions.ts:48-52).
- `CartLines.PriceOf` and `CartLines.LineTotal`: `item.product.metadata?.price || 0` and `price * item.quantity` (contexts/CartContext.tsx:99-100).
- `CartLines.CartTotal` and `CartLines.CartCount`: the values the two `reduce` calls compute (contexts/CartContext.tsx:97-106).
- `CartLines.Matches`: the key test `item.product.id === productId && item.selectedSize === selectedSize` (contexts/CartContext.tsx:52, 73, 86).
- `CartContext.Parse`: `JSON.parse` of the saved text, a throw being `None` (contexts/CartContext.tsx:33).

| member | source | states |
|---|---|---|
| `CartLines.FindIndex` | contexts/CartContext.tsx:51-53 | the result is -1 exactly when no line has the key; otherwise it is a line with the key, and no earlier line has it |
| `CartLines.AddToCart` | contexts/CartContext.tsx:51-66 | when a line has the key, that first line gets the requested quantity added (product and size unchanged), and the length and every other line stay the same; otherwise the old lines are kept in order and `{product, quantity, selectedSize}` is appended |
| `CartLines.RemoveFromCart` | contexts/CartContext.tsx:70-76 | no line with the key remains; a line survives iff it lacks the key; the length drops by the number of matching lines; with no match the list is unchanged |
| `CartLines.SetQuantity` | contexts/CartContext.tsx:84-90 | same length; each matching line gets the new quantity and nothing else changes; non-matching lines are unchanged; no match means no change |
| `CartLines.UpdateQuantity` | contexts/CartContext.tsx:78-91 | a quantity of 0 or less is exactly the removal of the key (whose own contract says no line with the key remains and exactly the others are kept); a positive quantity keeps the length and the keys, sets every matching line to that quantity (same product), and leaves the other lines alone; it is a no-op when nothing matches |
| `CartLaws.CartCountAppend` | contexts/CartContext.tsx:104-106 | the unit count of a concatenation is the sum of the parts' counts |
| `CartLaws.CartTotalAppend` | contexts/CartContext.tsx:97-102 | the total of a concatenation is the sum of the parts' totals |
| `CartLaws.CartCountReplace` | contexts/CartContext.tsx:57-61 | replacing one line changes the count by the difference of its quantity |
| `CartLaws.CartTotalReplace` | contexts/CartContext.tsx:57-61 | replacing one line changes the total by the difference of its line total |
| `CartLaws.AddToCartCount` | contexts/CartContext.tsx:48-66 | adding q units raises `getCartCount` by exactly q, whether merged or appended |
| `CartLaws.AddToCartTotal` | contexts/CartContext.tsx:48-66 | adding q units raises `getCartTotal` by q times the price of the line that receives them (the stored product when merging) |
| `CartLaws.RemoveFromCartCount` | contexts/CartContext.tsx:70-76 | removal lowers the unit count by exactly the units held under the key |
| `CartLaws.UpdateQuantityCount` | contexts/CartContext.tsx:84-90 | a positive update replaces the key's units by the quantity times the number of matching lines |
| `CartLaws.UniqueKeyAtMostOnce` | contexts/CartContext.tsx:70-76 | in a cart without duplicate keys, a key names at most one line, so a removal drops at most one |
| `CartLaws.RemoveFromCartConcat` | contexts/CartContext.tsx:72-74 | filtering distributes over concatenation, so the remaining lines keep their relative order |
| `CartLaws.AddToCartKeepsUnique` | contexts/CartContext.tsx:51-66 | if no two lines share a key before an add, none do after it |
| `CartLaws.RemoveFromCartKeepsUnique` | contexts/CartContext.tsx:70-76 | removal preserves key uniqueness |
| `CartLaws.UpdateQuantityKeepsUnique` | contexts/CartContext.tsx:78-91 | an update, positive or not, preserves key uniqueness |
| `CartLaws.AddToCartKeepsPositive` | contexts/CartContext.tsx:48-66 | if every line has quantity ≥ 1 and the add is of at least 1, every line still has quantity ≥ 1 |
| `CartLaws.RemoveFromCartKeepsPositive` | contexts/CartContext.tsx:70-76 | removal keeps every quantity ≥ 1 |
| `CartLaws.UpdateQuantityKeepsPositive` | contexts/CartContext.tsx:78-91 | an update with any quantity keeps every quantity ≥ 1 (0 or less removes the line) |
| `CartLaws.RepeatedAddsMerge` | contexts/CartContext.tsx:51-66 | from a cart without the key, any non-empty run of adds of that key (product records sharing the id, possibly with different prices) leaves the old lines in place and exactly one line for the key, appended, holding the first record added and the sum of the requested quantities |
| `CartLaws.TotalsExample` | contexts/CartContext.tsx:97-106 | lines 100×2 and 50×1 give total 250 and count 3 |
| `CartLaws.VariantsStayApart` | contexts/CartContext.tsx:51-66 | adding sizes "M" then "L" of one product yields two lines of quantity 1 |
| `CartContext.Stringify` | contexts/CartContext.tsx:44 | the written snapshot parses back to the same lines and is never the empty string |
| `CartContext.Hydrate` | contexts/CartContext.tsx:29-39 | a missing, empty or unparsable slot leaves the lines as they were; a parsable one replaces them with its contents |
| `CartContext.AfterSave` | contexts/CartContext.tsx:42-46 | before load, storage is untouched; once loaded, `'luxe-cart'` holds the serialized lines and every other key is unchanged |
| `CartContext.SaveThenHydrate` | contexts/CartContext.tsx:29-46 | a snapshot written by the change effect hydrates back to the same lines |
| `CartContext.QuantityOrDefault` | contexts/CartContext.tsx:48 | an omitted quantity is 1, and a given one is used as is |
| `CartContext.CartProvider.constructor` | contexts/CartContext.tsx:25-26 | a new provider starts with no lines and not loaded, and it neither reads nor writes storage |
| `CartContext.CartProvider.SaveEffect` | contexts/CartContext.tsx:42-46 | storage becomes `AfterSave` of the old storage: it is written only when loaded, and afterwards the snapshot equals the lines |
| `CartContext.CartProvider.Mount` | contexts/CartContext.tsx:29-39 | lines become `Hydrate` of the stored slot, `isLoaded` is set, and `'luxe-cart'` then holds the serialized lines |
| `CartContext.CartProvider.AddToCart` | contexts/CartContext.tsx:48-68 | lines become `CartLines.AddToCart` with the quantity defaulting to 1; storage is written only if loaded; key uniqueness is kept; positive quantities stay positive for adds of at least 1; the count grows by the quantity |
| `CartContext.CartProvider.RemoveFromCart` | contexts/CartContext.tsx:70-76 | lines become `CartLines.RemoveFromCart`; storage is written only if loaded; uniqueness and positivity are kept; the count drops by the units removed |
| `CartContext.CartProvider.UpdateQuantity` | contexts/CartContext.tsx:78-91 | lines become `CartLines.UpdateQuantity` (a quantity of 0 or less goes through `RemoveFromCart`); storage is written only if loaded; uniqueness and positivity are kept |
| `CartContext.CartProvider.ClearCart` | contexts/CartContext.tsx:93-95 | no lines remain, total and count are 0, and storage is written only if loaded |
| `CartContext.CartProvider.GetCartTotal` | contexts/CartContext.tsx:97-102 | the left-to-right fold returns the sum over lines of (price or 0) × quantity |
| `CartContext.CartProvider.GetCartCount` | contexts/CartContext.tsx:104-106 | the fold returns the sum of quantities, not the number of lines |
| `CartContext.ReloadAfterAdd` | contexts/CartContext.tsx:29-46 | after adding two units to an empty cart, a fresh provider over the same storage hydrates exactly that one line with quantity 2 |
| `Actions.IndexOf` | lib/actions.ts:30 | the first position of a character, or -1 exactly when it does not occur |
| `Actions.AllPlain` | lib/actions.ts:30 | true iff every character is in `[^\s@]` |
| `Actions.CheckerMatchesRegex` | lib/actions.ts:30-31 | the hand-written checker accepts a string iff the anchored pattern run, `@`, run, `.`, run matches it |
| `Actions.CheckerMatchesCharacterisation` | lib/actions.ts:30-31 | the checker accepts iff the string has exactly one `@` and no whitespace, a non-empty local part, and a `.` in the domain that is neither its first nor its last character |
| `Actions.SendContactEmail` | lib/actions.ts:19-97 | (1) an empty field gives "All fields are required" with no send, even when the e-mail is also malformed; (2) with all fields present, a non-matching e-mail gives "Invalid email address" with no send; (3) next, a missing or empty key gives "not configured" with no send; (4) a send happens iff all three checks pass, and the message is exactly sender `Luxe Fashion Boutique <tony@cosmicjs.com>`, recipients `['tony@cosmicjs.com']`, reply-to the form's e-mail, subject `Contact Form: ` followed by the form's subject, rendering the form; a reported error gives "Failed to send email", a throw gives "An unexpected error occurred"; (5) `success` holds iff every check passed and the send was delivered, and exactly when no error message is set |

## Left out

- JSON text is not modelled. `JSON.parse` of valid JSON that is not an array of lines (say `"5"`) would set `items` to a non-list in the source. In the model such text is an `Unparsable` snapshot.
- `localStorage.setItem` throwing (quota exceeded, private mode) is not modelled, and neither is the `console.error` logging.
- React scheduling is not modelled: batched state updates, effects running after render, and `getCartTotal`/`getCartCount` reading the list of the render that created them. Each operation is applied atomically and followed by the change effect. The source always builds a new array, so that effect always fires.
- Cross-tab races on the shared slot are not modelled, and neither is `useCart`'s provider check.
- Prices and quantities are integers, not JavaScript numbers, so NaN, fractions and floating-point rounding in the sums are not modelled.
- A product is reduced to its `id` and `metadata.price`. The other catalog fields travel with the line but are not read by the cart.
- `CartContext.CartProvider.AddToCart`: no guard on non-positive quantities, as in the source, so positivity is kept only for adds of at least 1.
- Form fields that are `undefined` are modelled as empty strings. Both are falsy in the source.
- The mail service client's construction and the HTML body text are not modelled. The request records the exact sender, the recipient list, the reply-to address, the subject and the form the body renders.
- Strings are sequences of code points. The pattern has no `u` flag, so the source sees UTF-16 code units. The answer is the same either way, because every surrogate unit is in `[^\s@]`.
- The HTTP contact route, the auth routes, the catalog gateway and the pages are not part of this model.
