# Keyboard input state

This project models the keyboard input state of the Dynamic_Static system library
(`Keyboard.hpp`), with proofs about it. The model has three parts:

- `Keyboard::Key`, the enumeration of keys (module `KeyboardKeys`, file `keys.dfy`).
  Its values copy the Windows virtual-key code table.
- `Keyboard::State`, a `std::bitset` with one bit per key value.
- `Keyboard`, which holds the State of the current frame and of the previous frame
  and answers `up`, `down`, `held`, `pressed` and `released` (module `KeyboardInput`,
  file `keyboard.dfy`).

`Key` is a `newtype` over `int`, and every enumerator is a constant with the value the
table gives it. So the aliases are the same value, as they are in C++:
- `IMEKanaMode`, `IMEHanguelMode` and `IMEHangulMode` are all 0x15.
- `IMEHanjaMode` and `IMEKanjiMode` are both 0x19.
- `X` and `LeftWindow` are both 0x58.

`Unknown`, `Count` and `Any` are numbered on from `OEM_Clear` (0xfe), so they are 0xff,
0x100 and 0x101. A State has `Count` = 256 bits.

The table sets `LeftWindow` to 0x58, the value of `X`. The Windows table gives the left
Windows key 0x5B. The model keeps 0x58 as written, so on a State and on a Keyboard,
writing or reading `LeftWindow` is writing or reading `X`. `Y` is 0x59 in the table and
collides with nothing.

`State` is a class over a `const` array of 256 booleans. The non-const `operator[]`
overloads return a `KeySet::reference`. Here they become the methods `Set` (by `Key`) and
`SetAt` (by `size_t`), which write one bit through that reference. The const overloads
become the functions `Get` and `GetAt`.

`Keyboard` is a class with two `const` State fields, `current` and `previous`.
`Update` models the private `update(const State&)`:
- It copies `current` into `previous`.
- Then it copies the argument into `current`.
- C++ assignment of a `State` copies its bits. `State.CopyFrom` models that copy.

The datatype `Snapshots` is the abstract value of a Keyboard. Its predicates `Down`,
`Pressed`, `Released` and `Held` are the specification that the class's query functions
are proved to meet.

`Replay` gives the Snapshots after a reset followed by one update per frame. When the
argument of `Keyboard.Update` is not the Keyboard's own previous State, the new Snapshots
value is `Updated` applied to the old value, as `Update`'s postcondition states. When the
argument is the previous State, the second copy reads the bits the first copy just wrote,
so both snapshots become the old current bits. `Replay` therefore describes runs with no
such update.

The method `Run` connects `Replay` to the class. It builds a new Keyboard and calls
`Update` once for each State in a sequence of States that are not its own. It proves that the
Keyboard's Snapshots then equal `Replay` of their bits. So `ReplayLastTwo` and
`PressesBalanceReleases` hold of a Keyboard object driven by `Update`.

The bodies of the Keyboard and State members are not in the header. Their behaviour
follows the declared fields, the signatures and the doc comments:
- `pressed` means down now and up in the previous frame.
- `released` means up now and down in the previous frame.
- `held` means down in both frames.
- `reset` clears both States.

## Model

| member | source | states |
|---|---|---|
| `KeyboardKeys.NamedKeysInKeySet` | include/Dynamic_Static/System/Input/Keyboard.hpp:38-245 | every enumerator except `Count` and `Any` is below `Count`, so it indexes the 256-bit `KeySet`; `Unknown` is 0xff, `Count` is 0x100, `Any` is 0x101, and neither of the last two indexes a State |
| `KeyboardKeys.DeclaredAliases` | include/Dynamic_Static/System/Input/Keyboard.hpp:54-124 | `IMEKanaMode`, `IMEHanguelMode` and `IMEHangulMode` are one value (0x15); `IMEHanjaMode` and `IMEKanjiMode` are one value (0x19); `X` and `LeftWindow` are one value (0x58) |
| `KeyboardInput.AllUp` | include/Dynamic_Static/System/Input/Keyboard.hpp:243-245 | the all-`Up` bit set has one bit per key value (256) and no bit set |
| `KeyboardInput.State.constructor` | include/Dynamic_Static/System/Input/Keyboard.hpp:245-248 | a new State owns a fresh 256-bit set with every key up |
| `KeyboardInput.State.Get` | include/Dynamic_Static/System/Input/Keyboard.hpp:251-256 | reading by `Key` returns the bit at the key's value, the same bit the `size_t` overload reads for that value |
| `KeyboardInput.State.GetAt` | include/Dynamic_Static/System/Input/Keyboard.hpp:265-270 | reading by `size_t` returns the bit at that index |
| `KeyboardInput.State.Set` | include/Dynamic_Static/System/Input/Keyboard.hpp:258-263 | writing through the `Key` reference sets that key's bit to the written value, so reading the key returns it, and leaves every other bit unchanged |
| `KeyboardInput.State.SetAt` | include/Dynamic_Static/System/Input/Keyboard.hpp:272-277 | writing through the `size_t` reference sets that bit and leaves every other bit unchanged; the new bits are the same as after `Set` with a key of that value |
| `KeyboardInput.State.Reset` | include/Dynamic_Static/System/Input/Keyboard.hpp:280-283 | after `reset()` every key reads as `Up` (`false`) |
| `KeyboardInput.State.CopyFrom` | include/Dynamic_Static/System/Input/Keyboard.hpp:240-248 | assigning a State copies all of its bits, also when the source is the target itself |
| `KeyboardInput.AliasesShareOneBit` | include/Dynamic_Static/System/Input/Keyboard.hpp:54-124 | the aliased enumerators read one bit of a State, so a write through one is seen through the others |
| `KeyboardInput.Keyboard.View` | include/Dynamic_Static/System/Input/Keyboard.hpp:287-288 | the abstract value of a Keyboard is its current and previous bits, each 256 long |
| `KeyboardInput.Keyboard.constructor` | include/Dynamic_Static/System/Input/Keyboard.hpp:286-288 | a new Keyboard has two distinct States, with every key up in both |
| `KeyboardInput.Keyboard.Up` | include/Dynamic_Static/System/Input/Keyboard.hpp:291-296 | `up(k)` is `!down(k)`; its reads frame is the current State only |
| `KeyboardInput.Keyboard.Down` | include/Dynamic_Static/System/Input/Keyboard.hpp:298-303 | `down(k)` is the specification's `Down`, the key's bit in the current State; its reads frame is the current State only |
| `KeyboardInput.Keyboard.Held` | include/Dynamic_Static/System/Input/Keyboard.hpp:305-310 | `held(k)` holds exactly when the key is down in both the current and the previous State |
| `KeyboardInput.Keyboard.Pressed` | include/Dynamic_Static/System/Input/Keyboard.hpp:312-317 | `pressed(k)` holds exactly when the key is down in the current State and up in the previous one |
| `KeyboardInput.Keyboard.Released` | include/Dynamic_Static/System/Input/Keyboard.hpp:319-324 | `released(k)` holds exactly when the key is up in the current State and down in the previous one |
| `KeyboardInput.Keyboard.Reset` | include/Dynamic_Static/System/Input/Keyboard.hpp:326-329 | after `reset()` both States are all up, so every key is up and none is pressed, released or held |
| `KeyboardInput.Keyboard.Update` | include/Dynamic_Static/System/Input/Keyboard.hpp:331-335 | after `update(s)`, previous holds the old current bits and current holds the old bits of `s`; nothing else changes; if `s` is the previous State itself, both snapshots become the old current bits |
| `KeyboardInput.EdgesPartition` | include/Dynamic_Static/System/Input/Keyboard.hpp:305-324 | pressed, released and held exclude one another; down is pressed or held; down in the previous frame is released or held |
| `KeyboardInput.UpdatedEdges` | include/Dynamic_Static/System/Input/Keyboard.hpp:305-332 | just after an update with `s`, `down(k)` is `s[k]`; `pressed(k)` holds iff `s[k]` and `k` was up before; `held(k)` holds iff `s[k]` and `k` was down before; `released(k)` holds iff not `s[k]` and `k` was down before |
| `KeyboardInput.Replay` | include/Dynamic_Static/System/Input/Keyboard.hpp:326-332 | a reset followed by any run of updates leaves two 256-bit snapshots |
| `KeyboardInput.ReplayLastTwo` | include/Dynamic_Static/System/Input/Keyboard.hpp:287-332 | after a reset and any run of updates, current is the last frame installed and previous the one before it (all up if there is none), so edges are taken only across frame boundaries |
| `KeyboardInput.PressesBalanceReleases` | include/Dynamic_Static/System/Input/Keyboard.hpp:312-332 | over any run of updates after a reset, a key's presses and releases alternate: the presses equal the releases, plus one while the key is down |
| `KeyboardInput.Run` | include/Dynamic_Static/System/Input/Keyboard.hpp:326-335 | a new Keyboard given one `update` per State has the Snapshots that `Replay` gives for those States' bits |
| `KeyboardInput.PressHoldRelease` | include/Dynamic_Static/System/Input/Keyboard.hpp:305-332 | for any key, updates with {k}, {k} and {} give: pressed and not held; then held and not pressed; then released and up |

## Left out

- `glfw_to_dst_key` (Keyboard.hpp:349) is not modelled. The header only declares it and gives no body, and its mapping depends on GLFW's key constants, which belong to a foreign library.
- `Input` is not modelled. It is the class that calls the private `update` and folds native key events into a State. It is declared in another header, not in Keyboard.hpp, which only names it as a friend (Keyboard.hpp:335). So `Keyboard.Update` has no caller in the model except `Run` and `PressHoldRelease`.
- Indexing a State with `Count`, `Any` or any other value outside 0..255 is undefined in the source. Every indexer and query therefore requires `InKeySet`. Negative `Key` values, which `static_cast<size_t>` would wrap, fall under the same requirement.
- `KeySet::reference` is the proxy object that the non-const `operator[]` returns. It is modelled only by the single write made through it (`Set`, `SetAt`). A reference kept and used later is not modelled.
- `Window`, the OpenGL `Program` wrapper and the ImGui glue are not modelled. They are native-library wrappers: window handles and callbacks, a mutex-guarded handle set, GPU calls, and compiled-out GUI code.
- The mouse device is not modelled. It is declared in another header, not in Keyboard.hpp.
