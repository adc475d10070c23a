# Stark Bank Java SDK: building Boletos and Workspaces on the client

The Stark Bank SDK exposes banking resources as typed objects whose static methods
hand requests to a REST helper. Before any request leaves the client, two resources
build their objects from a caller's `Map<String, Object>`. This project models those
two constructions and proves what they accept, what they reject and what they build.

- **Boleto** (a bank slip) has a *strict* map constructor. It copies the caller's map
  into a fresh `HashMap`. It then takes out the sixteen recognised keys in a fixed order
  (`amount`, `name`, `taxId`, `streetLine1`, `streetLine2`, `district`, `city`,
  `stateCode`, `zipCode`, `due`, `fine`, `interest`, `overdueLimit`, `tags`,
  `descriptions`, `discounts`), casting each value to its field's type. It fails if
  anything is left in the copy. `Boleto.create` walks a mixed list: a `HashMap` goes
  through that constructor, a `Boleto` is kept as it is, and anything else is an error.
  All of this happens before `Rest.post`.
- **Workspace** (a bank account of an organisation) has a *lenient* map constructor. It
  reads `username` and `name` with `get` and ignores every other key. `Workspace.create`
  builds the object it posts from those same two entries.

Modules:

- `JavaValues` (`java_values.dfy`) models the Java run time these constructors rely on:
  - nullable references (`Option`) and thrown exceptions (`Result`, `Exception`);
  - 32- and 64-bit integers, and `java.lang.Double` with NaN and the infinities;
  - the boxed `Value`s a map can hold;
  - which values the casts `(String)`, `(Double)`, `(Integer)`, `(String[])` and
    `(List<T>)`, and `((Number) v).longValue()`, accept, what they yield, and whether
    they throw. A thrown ClassCastException is identified by the key whose cast failed,
    not by the class names Java's message carries.

  The `Boleto.Description(text, amount)` and `Boleto.Discount(date, percentage)`
  constructors are the datatype constructors `Description` and `Discount`.
- `JavaMaps` (`java_maps.dfy`): the `HashMap` working copy, a class whose `Remove`
  changes it in place.
- `Boletos` (`boleto.dfy`):
  - the `Boleto` record, whose datatype constructor is the 22-argument full constructor;
  - the map constructor, as the imperative method `FromMap`, proved equal to the
    function `Parse`;
  - `create`, as the loop `Create`, proved equal to the function `Prepare`;
  - lemmas that characterise both functions.
- `Workspaces` (`workspace.dfy`): the `Workspace` record, whose datatype constructor is
  the three-argument constructor. The map constructor and the payload of `create` are
  pure functions, with lemmas. Both only read the caller's map with `get`, so as
  functions of its entries they cannot change it.

The two map constructors differ on keys they do not know. `Boleto(Map)` rejects
them (`Boletos.ParseRejectsAnyExtraKey`), while `Workspace(Map)` ignores them
(`Workspaces.FromMapIgnoresOtherKeys`).

## Model

| member | source | states |
|---|---|---|
| JavaValues.Lookup | src/main/java/com/starkbank/Workspace.java:52-53 | `get`/`remove` on a missing key yields null, on a present key its value |
| JavaValues.TruncateTowardZero | src/main/java/com/starkbank/Boleto.java:165 | the integer part of a double, rounded toward zero, for either sign |
| JavaValues.DoubleToLong | src/main/java/com/starkbank/Boleto.java:165 | `longValue()` of a Double: NaN gives 0, the infinities and out-of-range values saturate to the long bounds, in-range values truncate toward zero |
| JavaValues.CastLongValue | src/main/java/com/starkbank/Boleto.java:165 | `((Number) v).longValue()` succeeds exactly on Integer, Long, Double and other Numbers, with each one's long value; null throws NullPointerException, any other class ClassCastException |
| JavaValues.CastString | src/main/java/com/starkbank/Boleto.java:166-174 | `(String) v` succeeds exactly on null (giving null) or a String (giving it); otherwise a ClassCastException, identified by the key whose cast failed |
| JavaValues.CastDouble | src/main/java/com/starkbank/Boleto.java:175-176 | `(Double) v` accepts only null or a Double; an Integer or Long is rejected |
| JavaValues.CastInteger | src/main/java/com/starkbank/Boleto.java:177 | `(Integer) v` accepts only null or an Integer; a Long is rejected |
| JavaValues.CastStringArray | src/main/java/com/starkbank/Boleto.java:178 | `(String[]) v` accepts only null or a String array, kept element for element |
| JavaValues.CastList | src/main/java/com/starkbank/Boleto.java:179-180 | the unchecked cast to `List<...>` accepts null or any list, whatever its elements are |
| JavaMaps.HashMap.constructor | src/main/java/com/starkbank/Boleto.java:163 | the working copy starts with exactly the caller's entries |
| JavaMaps.HashMap.Remove | src/main/java/com/starkbank/Boleto.java:165-180 | removes the key from the copy and returns its previous value, null if absent |
| JavaMaps.HashMap.KeySet | src/main/java/com/starkbank/Boleto.java:188 | `keySet()` of the working copy: exactly the keys still in it, which the "Unknown parameters" error reports |
| JavaMaps.HashMap.IsEmpty | src/main/java/com/starkbank/Boleto.java:187 | true exactly when no key is left |
| Boletos.TextDescription | src/main/java/com/starkbank/Boleto.java:456-459 | the one-argument Description keeps the text and has a null amount |
| Boletos.FromMap | src/main/java/com/starkbank/Boleto.java:161-190 | draining a fresh copy key by key gives exactly `Parse` of the caller's entries, and the caller's map is unchanged |
| Boletos.RejectionNamesKey | src/main/java/com/starkbank/Boleto.java:165-180 | the i-th statement can only fail on the i-th recognised key: ClassCast for that key, or NullPointer when `amount` is null |
| Boletos.AllAdmittedByIndex | src/main/java/com/starkbank/Boleto.java:165-180 | every cast goes through iff none of the sixteen statements throws |
| Boletos.ParseFailsAtFirstRejected | src/main/java/com/starkbank/Boleto.java:165-180 | when the i-th cast is the first to fail, the constructor throws exactly that cast's exception, whatever follows |
| Boletos.FirstRejected | src/main/java/com/starkbank/Boleto.java:165-180 | if any recognised key holds a value its cast refuses, construction fails |
| Boletos.ParseNeedsAmount | src/main/java/com/starkbank/Boleto.java:165 | a missing or null `amount` makes construction throw NullPointerException, whatever else the map holds |
| Boletos.ParseRejectsLeftovers | src/main/java/com/starkbank/Boleto.java:187-189 | with well-typed recognised values, any extra key makes construction fail with an error naming exactly the set of extra keys |
| Boletos.ParseAccepts | src/main/java/com/starkbank/Boleto.java:162-185 | with well-typed values under recognised keys only, construction succeeds; each field is its key's value, null when absent; id, fee, line, barCode, status and created are null |
| Boletos.ParseSucceedsIff | src/main/java/com/starkbank/Boleto.java:165-189 | construction succeeds iff every recognised key's value passes its cast and no other key is present (both directions) |
| Boletos.AdmittedDependsOnRecognizedKeys | src/main/java/com/starkbank/Boleto.java:165-180 | whether the casts pass depends only on the values under the sixteen recognised keys |
| Boletos.ParseRejectsAnyExtraKey | src/main/java/com/starkbank/Boleto.java:187-189 | adding one unrecognised key to an accepted map makes it fail, naming just that key |
| Boletos.ParseBuilds | src/main/java/com/starkbank/Boleto.java:161-190 | a map with only recognised keys whose values cast to the fields of an unsent Boleto builds that Boleto |
| Boletos.ParseFieldMap | src/main/java/com/starkbank/Boleto.java:101-129 | round trip: a Boleto from the full constructor with null server fields, written as a map, comes back unchanged from the map constructor |
| Boletos.Convert | src/main/java/com/starkbank/Boleto.java:313-322 | one element of `create`'s list: null throws NullPointerException, a HashMap goes through the map constructor, a Boleto is kept unchanged, any other class throws UnknownType |
| Boletos.PrepareFailurePersists | src/main/java/com/starkbank/Boleto.java:313-323 | once an element throws, later elements do not change the outcome |
| Boletos.PrepareSucceeds | src/main/java/com/starkbank/Boleto.java:312-321 | the loop finishes iff every element converts; the list then has the input's length and order, element k being element k's conversion |
| Boletos.PrepareFailsAtFirst | src/main/java/com/starkbank/Boleto.java:313-323 | `create` throws exactly what its first unconvertible element throws |
| Boletos.Create | src/main/java/com/starkbank/Boleto.java:311-324 | the loop, calling the map constructor on each HashMap, yields exactly `Prepare` of the list: what would be posted, or the first exception |
| Workspaces.FromMap | src/main/java/com/starkbank/Workspace.java:50-54 | succeeds iff `username` and `name` are each null, absent or a String; the fields are those values, id is null; otherwise a ClassCast naming the first bad key |
| Workspaces.CreatePayload | src/main/java/com/starkbank/Workspace.java:202-206 | the object `create` posts, built with the three-argument constructor and a null id, equals what the map constructor builds from the same map |
| Workspaces.FromMapIgnoresOtherKeys | src/main/java/com/starkbank/Workspace.java:50-54 | setting any key other than `username` and `name` changes neither the outcome nor the Workspace |
| Workspaces.FromMapReadsOnlyItsKeys | src/main/java/com/starkbank/Workspace.java:50-54 | the outcome equals the outcome on the map restricted to `username` and `name` |
| Workspaces.FromMapFieldMap | src/main/java/com/starkbank/Workspace.java:30-54 | round trip: a Workspace's username and name, written as a map, come back from the map constructor with a null id |

## Left out

- Every `Rest.*` call: `post`, `postSingle`, `getId`, `getList`, `getStream`, `delete`
  and `getPdf`. This covers the network, the server's answer and the user objects
  (`Project`, `Organization`, `Settings.user`). `Rest` is not part of this model.
  `Create` and `CreatePayload` stop at the object or list that would be sent.
- Boleto queries, `get`, `delete`, `pdf`, `Boleto.Log` and the `Generator` pagination,
  which are network and stream plumbing. `Workspace` queries and `get` are left out for
  the same reason.
- The documented minimum amount of 200 and the maximum `overdueLimit` of 59. The code
  never checks them. The server-side defaults for `due`, `fine`, `interest` and
  `overdueLimit` are also left out.
- Arithmetic on `fine`, `interest` and `percentage`. A finite double is kept as a real,
  and only the truncation done by `longValue()` is modelled.
- The order of keys in the "Unknown parameters" message, which follows `HashMap`
  iteration order. The error carries the set of keys.
- A null map handed to either map constructor, and null keys inside a map.
- `Boletos.Create`: a list element is described by its run-time class (`Item`), so a
  list changed while `create` runs is not modelled.
- `Boletos.Create`: the list is a `seq`, which cannot be null. `create(null, user)`
  throws NullPointerException at the for-each loop, and the model does not cover that
  case.
- `Boletos.Create`: a map's keys are strings. `create` takes a `List<?>`, so it also
  accepts a HashMap whose keys are not Strings. If such a key is left over, building
  the error message with `String.join` throws ClassCastException instead of the
  "Unknown parameters" exception. The model cannot express that case.
- `JavaValues.CastString`, `CastDouble`, `CastInteger`, `CastStringArray`, `CastList`
  and `CastLongValue`: Java's ClassCastException carries class names. The model's
  `ClassCast(key)` records only the key whose cast failed, not the message Java
  builds.
- `Boletos.FromMap`: the caller's map is a `HashMap` object. Other `Map`
  implementations the constructor also accepts when called directly are not modelled
  separately.
- `TestInvoice.java`: integration tests against the live API that depend on the
  clock. `Invoice` is not part of this model.
