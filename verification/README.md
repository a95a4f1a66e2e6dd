# Salespoint inventory check and transient user, in Dafny

This project models two pieces of the Salespoint e-commerce framework.

- **The unique inventory's stock check.** A `UniqueInventory` holds at most one inventory item per product. It answers two questions:
  - Does the stock of one product cover a demanded quantity?
  - Does the stock cover a whole order? The order's lines are grouped by product and their quantities summed, starting from `Quantity.NONE`. Every product's total must then pass the single-product check.

  The repository query becomes a map lookup. The inventory is a map from product identifier to item, and its type requires every item to be stored under its own product. So "one item per product" holds by construction. Both checks are functions, so neither can change the inventory.
- **The transient user.** A `TransientUser` keeps an identifier, a hashed password and a set of capabilities. Capabilities are granted and revoked in place. The model is a Dafny class whose methods name exactly the field they may change.

Files:
- `quantities.dfy`: the part of `Quantity` that the check uses. Amounts are exact rationals (`real`); `NONE` is zero; `add` is `+`; `isZeroOrNegative` is `<= 0`.
- `wrappers.dfy`: `Option`, standing in for `java.util.Optional`.
- `unique_inventory.dfy`: module `UniqueInventory`.
- `transient_user.dfy`: module `Users`.

Some types are used by the core but are not part of this model: `Quantity`, `UniqueInventoryItem`, `Order`, `OrderLine`, `Product`, `UserIdentifier`, `Capability`, `Utility`. Each is reduced to what the core uses:
- An item's `hasSufficientQuantity` follows the interface's doc comment, "exactly or more": the demand is at most the item's quantity.
- `UserIdentifier.compareTo` is taken to be `String.compareTo` on the identifier's text. That text is a sequence of UTF-16 code units, as in a Java string, so characters above U+FFFF compare by their surrogate pairs, as Java compares them.
- Password hashing and verification are given as a `PasswordCodec` of two function values, which the model does not interpret.

The Java code rejects null arguments with `Assert.notNull` / `Objects.requireNonNull`. Dafny's datatypes and non-nullable class types cannot be null, so these checks hold by typing and no `requires` is needed.

## Model

| member | source | states |
|---|---|---|
| `UniqueInventory.FindByProductIdentifier` | src/main/java/org/salespointframework/inventory/UniqueInventory.java:47-57 | the lookup finds an item exactly when the inventory holds an item for that product, and any item found belongs to that product |
| `UniqueInventory.FindByProduct` | src/main/java/org/salespointframework/inventory/UniqueInventory.java:59-67 | the lookup by product is the lookup by the product's identifier |
| `UniqueInventory.HasSufficientQuantity` | src/main/java/org/salespointframework/inventory/UniqueInventory.java:69-86 | with an item, true iff the demand is at most the on-hand quantity; without one, true iff the demand is zero or negative |
| `UniqueInventory.HasSufficientQuantityForOrder` | src/main/java/org/salespointframework/inventory/UniqueInventory.java:88-107 | true iff, for every product named in the order, the sum of all its lines is at most the on-hand quantity, or at most zero when the product has no item |
| `UniqueInventory.Demand` | src/main/java/org/salespointframework/inventory/UniqueInventory.java:99-103 | the grouping folds the lines in order into per-product totals, each starting from `Quantity.NONE`; exactly the products named in the order get an entry (the values are characterized by `DemandIsSumPerProduct`) |
| `UniqueInventory.DemandIsSumPerProduct` | src/main/java/org/salespointframework/inventory/UniqueInventory.java:99-103 | each entry of the grouped demand is the sum of all that product's lines, not only the first |
| `UniqueInventory.SumForPermutation` | src/main/java/org/salespointframework/inventory/UniqueInventory.java:99-103 | a product's total is the same for any permutation of the lines |
| `UniqueInventory.DemandIgnoresLineOrder` | src/main/java/org/salespointframework/inventory/UniqueInventory.java:99-103 | the grouped demand map is the same for any permutation of the lines |
| `UniqueInventory.OrderCheckIgnoresLineOrder` | src/main/java/org/salespointframework/inventory/UniqueInventory.java:98-107 | the order check gives the same answer for any permutation of the lines |
| `UniqueInventory.EmptyOrderIsSufficient` | src/main/java/org/salespointframework/inventory/UniqueInventory.java:105-106 | an order without lines is always sufficient |
| `UniqueInventory.SufficientOrderCoversEachLine` | src/main/java/org/salespointframework/inventory/UniqueInventory.java:88-107 | if no line has a negative quantity, a sufficient order makes each of its lines sufficient on its own |
| `UniqueInventory.PerLineCheckIsWeakerThanOrderCheck` | src/main/java/org/salespointframework/inventory/UniqueInventory.java:91-93 | checking lines one by one is weaker than checking the summed demand: two lines of 6 against 10 on hand each pass alone, but the order fails |
| `UniqueInventory.DemandSumsSameProductLines` | src/main/java/org/salespointframework/inventory/UniqueInventory.java:99-103 | lines (p, 2) and (p, 3) group to the single entry p: 5 |
| `UniqueInventory.MixedOrderExample` | src/main/java/org/salespointframework/inventory/UniqueInventory.java:98-107 | with stock {A: 10, B: 0}, the lines (A, 4), (A, 3), (B, 0) are sufficient |
| `Users.SetAdd` | SalespointFramework/src/org/salespointframework/core/user/TransientUser.java:36-40 | Set.add reports a change iff the element was absent; afterwards the element is present and no other element changed |
| `Users.SetRemove` | SalespointFramework/src/org/salespointframework/core/user/TransientUser.java:43-47 | Set.remove reports a change iff the element was present; afterwards the element is absent and no other element changed |
| `Users.AddIsIdempotent` | SalespointFramework/src/org/salespointframework/core/user/TransientUser.java:36-40 | a second add of the same element reports no change and leaves the set unchanged |
| `Users.RemoveUndoesAdd` | SalespointFramework/src/org/salespointframework/core/user/TransientUser.java:36-47 | removing an element just added (that was absent) restores the original set |
| `Users.AddUndoesRemove` | SalespointFramework/src/org/salespointframework/core/user/TransientUser.java:36-47 | adding back an element just removed (that was present) restores the original set |
| `Users.CompareZeroIffEqual` | SalespointFramework/src/org/salespointframework/core/user/TransientUser.java:109-112 | identifier comparison is zero exactly for equal identifiers |
| `Users.CompareAntisymmetric` | SalespointFramework/src/org/salespointframework/core/user/TransientUser.java:109-112 | swapping the two identifiers negates the comparison |
| `Users.CompareTransitive` | SalespointFramework/src/org/salespointframework/core/user/TransientUser.java:109-112 | "compares below" is transitive |
| `Users.CompareNegativeIffLexLess` | SalespointFramework/src/org/salespointframework/core/user/TransientUser.java:109-112 | a negative comparison holds exactly when the first identifier precedes the second in lexicographic order |
| `Users.TransientUser.constructor` | SalespointFramework/src/org/salespointframework/core/user/TransientUser.java:18-27 | stores the identifier and the hash of the password; the capability set holds exactly the given capabilities, duplicates collapsed |
| `Users.TransientUser.GetIdentifier` | SalespointFramework/src/org/salespointframework/core/user/TransientUser.java:29-33 | returns the user's identifier |
| `Users.TransientUser.AddCapability` | SalespointFramework/src/org/salespointframework/core/user/TransientUser.java:35-40 | returns true iff the capability was absent; afterwards it is present, the other capabilities are unchanged, and only the capability set is modified |
| `Users.TransientUser.RemoveCapability` | SalespointFramework/src/org/salespointframework/core/user/TransientUser.java:42-47 | returns true iff the capability was present; afterwards it is absent, the other capabilities are unchanged, and only the capability set is modified |
| `Users.TransientUser.HasCapability` | SalespointFramework/src/org/salespointframework/core/user/TransientUser.java:49-54 | capability-set membership; modifies nothing |
| `Users.TransientUser.GetCapabilities` | SalespointFramework/src/org/salespointframework/core/user/TransientUser.java:56-60 | returns exactly the user's capabilities |
| `Users.TransientUser.VerifyPassword` | SalespointFramework/src/org/salespointframework/core/user/TransientUser.java:62-68 | delegates to the hashing utility with the stored hash |
| `Users.TransientUser.ChangePassword` | SalespointFramework/src/org/salespointframework/core/user/TransientUser.java:70-75 | replaces only the stored hash, with the hash of the new password; identifier and capabilities stay as they were |
| `Users.TransientUser.CompareTo` | SalespointFramework/src/org/salespointframework/core/user/TransientUser.java:108-112 | zero iff the identifiers are equal; negative iff this user's identifier precedes the other's lexicographically; positive iff it follows |
| `Users.AddCapabilityTwice` | SalespointFramework/src/org/salespointframework/core/user/TransientUser.java:35-40 | granting the same capability twice: the second call returns false, and the set is the original plus that capability |

## Left out

- Stock deduction when an order completes. The interface's doc comment mentions it, but this file has no code for it, so there is no `deduct`.
- The JPQL query and the persistence supertypes (`SalespointRepository`, `Inventory`). The repository is modelled as a map.
- Units inside `Quantity`, and its unit-compatibility check on `add`. The amounts are exact rationals with no unit.
- The concurrent collector `groupingByConcurrent`. The aggregation is modelled as a sequential fold over the lines. The proved order independence shows that the result does not depend on the order in which lines are combined.
- `TransientUser.equals`. It tests for `PersistentUser` and then casts to `TransientUser`, and `PersistentUser` is not part of this model.
- `hashCode` and `toString`. They only delegate to `UserIdentifier`, which is not part of this model.
- The order of capabilities inside the `TreeSet`. The model keeps a mathematical set. This assumes that `Capability`'s ordering agrees with its equality.
- `UniqueInventory.ItemHasSufficientQuantity`: `UniqueInventoryItem` is not part of this model. Its `hasSufficientQuantity`, called at src/main/java/org/salespointframework/inventory/UniqueInventory.java:84, is assumed to mean what the doc comment at lines 69-72 says: the item holds exactly or more than the demand.
- `Users.TransientUser.VerifyPassword`: states only that the call delegates to the hashing utility. The utility's own behaviour is foreign code.
- The other files of the repository (order manager, persistent product, product type, calendar capability enum, mail sender test). They contain persistence and entity plumbing, or no logic at all.
