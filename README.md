# pyvisa typed attribute descriptors, modelled in Dafny

pyvisa exposes VISA instrument attributes as typed Python properties. Each
attribute is a descriptor bound to an attribute id, with read and write
permissions. Reading goes through the resource's `get_visa_attribute(id)` and
then decodes the raw value. Writing encodes and validates the value and then
calls `set_visa_attribute(id, raw)`. The descriptor kinds are:

- `Attribute`: raw pass-through.
- `BooleanAttribute`: the `VI_TRUE`/`VI_FALSE` sentinels to and from `bool`.
- `CharAttribute`: a code point to and from a one-character string.
- `EnumAttribute`: a closed `IntEnum`.
- `IntAttribute`: decodes with `int()`.
- `RangeAttribute`: `[min_value, max_value]` plus an optional allow-list.
- `ValuesAttribute`: an allow-list only.

`in_resource` is the static check of whether an attribute applies to a resource
of a given interface type and resource class.

The behaviour modelled is the behaviour pinned down by
`pyvisa/testsuite/test_attributes.py`: its host class `FakeResource` and the
assertions of its eight tests. `pyvisa/attributes.py` is not part of this
model. The tests do not fix what a Range or Values read returns; the model returns
the raw value unchanged. An enum write stores the member's integer value.

Files:

- `wrappers.dfy`: `Option`, `Result` and `Outcome`, which stand for Python's
  raised exceptions.
- `decimals.dfy`: decimal printing and parsing of integers, and substring search.
- `pyvalues.dfy`: the dynamic Python values (int, str, bool, IntEnum member)
  that flow between host and descriptor; Python's numeric view, truthiness
  and `repr`; the exceptions `AttributeError`, `ValueError` and `TypeError`.
- `host.dfy`: `FakeResource` as a class with fields `attrId` and `attrValue`,
  and the pure host semantics `HostGet`/`HostSet` that its methods are proved
  against.
- `applicability.dfy`: `in_resource` over an optional session type, where
  `None` stands for the bare `object()` of the test. Also the two registry
  entries the test uses.
- `attributes.dfy`: the descriptor configuration record, decoding (`PostGet`),
  encoding and validation (`PreSet`), the read and write paths as functions
  (`AttrGet`, `AttrSet`) and as methods over the host (`Get`, `Set`), and the
  round-trip and rejection lemmas.
- `attribute_tests.dfy`: each test function replayed on the model. Its
  postcondition is what the test asserts.

## Model

| member | source | states |
|---|---|---|
| Host.HostGet | pyvisa/testsuite/test_attributes.py:25-29 | succeeds exactly when the requested id is the stored id, then with the stored value; otherwise fails with the host's `ValueError` |
| Host.HostSet | pyvisa/testsuite/test_attributes.py:31-35 | succeeds exactly when the id matches; the new state keeps the id and holds the new value; otherwise fails with the host's `ValueError` |
| Host.SetThenGet | pyvisa/testsuite/test_attributes.py:25-35 | a write under the stored id succeeds, and a read under that id then returns the value just written |
| Host.FakeResource.constructor | pyvisa/testsuite/test_attributes.py:21-23 | the new resource holds the given id and value |
| Host.FakeResource.GetVisaAttribute | pyvisa/testsuite/test_attributes.py:25-29 | returns what `HostGet` says of the current fields and changes nothing |
| Host.FakeResource.SetVisaAttribute | pyvisa/testsuite/test_attributes.py:31-35 | on a matching id, overwrites the value and keeps the id; otherwise fails and leaves both fields unchanged |
| Applicability.InResource | pyvisa/testsuite/test_attributes.py:58-63 | an unrestricted attribute applies to every query; a restricted one applies exactly to the session types it lists, and never to an unclassified query |
| Applicability.IntfInstNameEverywhere | pyvisa/testsuite/test_attributes.py:58 | the interface-instance-name attribute applies to every query, unclassified included |
| Applicability.AsrlBaudOnlySerialInstr | pyvisa/testsuite/test_attributes.py:59-63 | the baud-rate attribute applies exactly to `(asrl, "INSTR")` |
| Attributes.MakeDescriptor | pyvisa/testsuite/test_attributes.py:38-46 | the configuration record carries the given id, kind and permissions and applies to every resource |
| Attributes.Lookup | pyvisa/testsuite/test_attributes.py:120-127 | finds an enum member with the given value if any member has it; otherwise no member has that value |
| Attributes.LookupUnique | pyvisa/testsuite/test_attributes.py:120-129 | in a `@enum.unique` enum, looking up a member's value gives back that member |
| Attributes.InvalidValueSaysSo | pyvisa/testsuite/test_attributes.py:161-196 | every message built by the invalid-value builder contains "invalid value"; that builder words the enum read and write rejections and the range and values write rejections (the char, int-parse and range-on-text errors are worded otherwise) |
| Attributes.EnumRejectionSaysInvalid | pyvisa/testsuite/test_attributes.py:120-133 | an enum read that matches no member, and an enum write of a non-member, both fail with a message containing "invalid value" |
| Attributes.RangeMessageOr | pyvisa/testsuite/test_attributes.py:158-182 | a range rejection message contains " or " if and only if the allow-list is non-empty |
| Attributes.PostGet | pyvisa/testsuite/test_attributes.py:69-141 | decoding per kind: pass-through; `bool` is "equals `VI_TRUE`"; for a char, success exactly on a valid code point, giving that character; for an enum, success exactly when some member has the value, giving such a member, otherwise a `ValueError` built by the invalid-value builder; for an int, the numeric value, or for text exactly when it parses, the parsed integer, otherwise `ValueError`; a char decode of text is a `TypeError` and of an out-of-range number a `ValueError` |
| Attributes.PreSet | pyvisa/testsuite/test_attributes.py:98-196 | encoding and validation per kind: a boolean stores exactly one of the two sentinels; a char accepts exactly one-character text and stores its code point, otherwise `TypeError`; an enum accepts exactly the values equal to a member and stores the integer, otherwise a `ValueError` built by the invalid-value builder; a range accepts exactly `min <= v <= max` or `v` in the allow-list, and text is a `TypeError`; a values attribute accepts exactly the allow-list; accepted range and values input is stored unchanged; the rejection messages are given |
| Attributes.AttrGet | pyvisa/testsuite/test_attributes.py:69-86 | reading an unreadable attribute fails with `AttributeError` whatever the host holds; otherwise a host id mismatch propagates the host's error unchanged, and a match decodes the stored value |
| Attributes.AttrSet | pyvisa/testsuite/test_attributes.py:72-92 | writing an unwritable attribute fails with `AttributeError`; a validation error comes before the host is asked; it succeeds exactly when writable, valid and the id matches, and then only the stored value changes, to the encoded value |
| Attributes.Get | pyvisa/testsuite/test_attributes.py:69-86 | the read path through the host's method returns what `AttrGet` says |
| Attributes.Set | pyvisa/testsuite/test_attributes.py:72-92 | the write path through the host's method: on success the host holds `AttrSet`'s new state; on failure it returns that error and the host is untouched |
| Attributes.PlainRoundTrip | pyvisa/testsuite/test_attributes.py:69-73 | a plain attribute stores any value as given and reads it back |
| Attributes.BooleanRoundTrip | pyvisa/testsuite/test_attributes.py:98-103 | writing any value stores `VI_TRUE` or `VI_FALSE` according to its truth, and reading gives back that truth |
| Attributes.CharRoundTrip | pyvisa/testsuite/test_attributes.py:109-114 | writing any character stores its code point, and reading gives back that character |
| Attributes.EnumRoundTrip | pyvisa/testsuite/test_attributes.py:125-130 | writing a member, or any value equal to one, stores the member's integer, and reading gives back the member |
| Attributes.IntDecodesDecimal | pyvisa/testsuite/test_attributes.py:139-141 | a host holding the decimal text of any integer reads as that integer |
| Attributes.IntRoundTrip | pyvisa/testsuite/test_attributes.py:139-141 | writing an integer stores it and reads it back |
| Attributes.ValidatedRoundTrip | pyvisa/testsuite/test_attributes.py:147-196 | a range or values attribute stores an accepted number unchanged and reads it back; a rejected one fails with a `ValueError` saying "invalid value" |
| Attributes.RangeRejection | pyvisa/testsuite/test_attributes.py:158-182 | an out-of-range, unlisted integer is rejected with "invalid value", and the message says " or " exactly when an allow-list is configured |
| Decimals.ParseInt | pyvisa/testsuite/test_attributes.py:139-141 | accepts exactly an optional sign followed by decimal digits; the sign decides the sign of the result |
| Decimals.ParseDecimal | pyvisa/testsuite/test_attributes.py:139-141 | parsing the decimal text of any integer gives that integer back |
| AttributeTests.TestInResource | pyvisa/testsuite/test_attributes.py:54-63 | the three applicability assertions of `test_in_resource_method` |
| AttributeTests.TestAttribute | pyvisa/testsuite/test_attributes.py:65-92 | reads 1, reads 2 after writing 2; both paths fail with the host's error once the id changes; the unreadable and unwritable descriptors fail with `AttributeError` and the host keeps its value |
| AttributeTests.TestBooleanAttribute | pyvisa/testsuite/test_attributes.py:94-103 | `VI_TRUE` reads as true; after writing false it reads false and the host holds `VI_FALSE` |
| AttributeTests.TestCharAttribute | pyvisa/testsuite/test_attributes.py:105-114 | code point 10 reads as "\n"; after writing "\r" it reads "\r" and the host holds 13 |
| AttributeTests.TestEnumAttribute | pyvisa/testsuite/test_attributes.py:116-133 | 1 reads as member a; after writing member b it reads b and the host holds 2; writing 3 fails with a `ValueError` saying "invalid value" |
| AttributeTests.TestIntAttribute | pyvisa/testsuite/test_attributes.py:135-141 | the text "1" reads as the integer 1 |
| AttributeTests.TestRangeAttribute | pyvisa/testsuite/test_attributes.py:143-182 | 0, 2 and 1 are each stored unchanged; -1 and 3 are rejected with "invalid value" and no " or "; with the allow-list [10], 10 is stored and 3 is rejected with "invalid value" and " or " |
| AttributeTests.TestValuesAttribute | pyvisa/testsuite/test_attributes.py:184-196 | with the allow-list [10, 20], 10 is stored and 3 is rejected with "invalid value" |

## Left out

- `create_resource_cls` and its mutable default `attrs={}`: runtime class synthesis with `type(...)` has no Dafny counterpart. A descriptor is an explicit configuration record (`MakeDescriptor`).
- Python's descriptor protocol: `__get__`/`__set__`, and access through the class with no instance. Reading and writing are plain methods that take the host.
- `BaseTestCase` and the unittest machinery.
- The numeric values of `VI_TRUE`/`VI_FALSE`: `pyvisa.constants` is not part of this model. The model uses the VISA values 1 and 0. The boolean lemmas need only that the two differ.
- The numeric codes of `InterfaceType`: interface types are a plain enumeration.
- The applicability registry: only the resources of `AttrVI_ATTR_INTF_INST_NAME` and `AttrVI_ATTR_ASRL_BAUD` are modelled. Their other configuration (ids, kinds, limits) is not shown.
- Exact message wording: the enum rejections (on reading and on writing), the range rejections and the values rejections read "<value> is an invalid value, should be <expectation>". They omit the attribute's name. A range message shows the integer value of the rejected input rather than its `repr`. The other errors carry Python's own wording: char decode and encode, int parse, and a range write of text.
- Decimals.ParseInt: accepts only an optional sign and decimal digits. Python's `int()` also accepts surrounding whitespace, underscores between digits, and non-ASCII digits.
- Attributes.PostGet: decoding a surrogate code point (0xD800 to 0xDFFF) as a character fails with `ValueError`, because a Dafny `char` is a Unicode scalar value. Python's `chr` returns a lone surrogate there.
- Python values other than `int`, `str`, `bool` and `IntEnum` members (floats, `None`, arbitrary objects): the tests do not use them.
- Native-library calls, sessions and I/O: none of these appear in the modelled code.
