# Pharmacy supply dataset generator, modelled in Dafny

`gen.py` builds a small synthetic dataset for a public-sector pharmacy
supply chain. It has three medications (`Medicamento`). Each medication
has one price-registration agreement (`AtaRegistroPrecos`), and each
agreement has two purchase commitments (`Empenho`). There is one lot
(`Lote`) per commitment and one hundred stock movements (`Fluxo`) per lot.
The program appends every record as a line to one CSV file per record type.

The model has five modules:

- `Results`: `Option` and `Result`.
- `Decimal`: Python's `str` on integers, and reading decimal text back.
- `Domain`: the two enumerations with their labels, and the five records.
  An instant is an integer count of microseconds (`Time`). A day is `DAY`.
- `Generators`: the record generators, as pure functions. Every
  `random.randint` / `random.choice` draw and every `datetime.now()`
  reading is a parameter. A `requires` gives each draw the range the
  random module guarantees. `gerar_empenho` returns a `Result`, because
  `randint` raises `ValueError` on an empty range.
- `CsvSink`: `escrever_csv`. A `FileSystem` class holds a map from file
  name to lines, and `EscreverCsv` updates it in place. The method
  normalises the record's fields in a loop (enum to label, datetime to
  ISO text). It tests whether the file exists by whether it is in the map
  at all, as the source tests it by opening the file. It then appends the
  header line only if the file did not exist, and one data line in every
  case. `AppendRow`/`AppendRows` state the resulting file system as
  functions. Lemmas about them cover:
  - one header followed by N lines on a fresh file;
  - no header on an existing file, even an empty one;
  - other files unchanged;
  - concatenation of runs;
  - reading each data line back to its record.
- `Orchestrator`: `main`. Each of its five comprehensions is a loop
  method, and `GerarDados` chains them. `RunMain` then drains every
  collection into its file through `EscreverTodos`. `Dataset` states what
  one run generates. `DatasetLinks` and `WriteAllRowCounts` state its
  links between records and its line counts.

## Model

| member | source | states |
|---|---|---|
| Domain.LabelsRoundTrip | gen.py:7-16 | each enum member's label (its `.value`) looks up that same member again |
| Decimal.Digits | gen.py:69 | the decimal text of a natural number is non-empty, all digits, with no leading zero above 9 |
| Decimal.DecimalValueOfDigits | gen.py:69 | reading back the decimal text of n gives n |
| Decimal.DigitsLength | gen.py:62 | a number in [10^(k-1), 10^k) is written with exactly k digits |
| Decimal.IntToStringRoundTrip | gen.py:69 | `str(i)` parses back to i, for negative and non-negative i alike |
| Decimal.NonNegativeRoundTrip | gen.py:69 | the digits of n parse back to n |
| Decimal.NegativeRoundTrip | gen.py:69 | a minus sign followed by the digits of n > 0 parses back to -n |
| Generators.CnpjFormat | gen.py:61-62 | the tax id is 18 characters: digit groups of lengths 2, 3, 3, 4 and 2 at fixed positions, separated by '.', '.', '/' and '-', each group reading back as its draw |
| Generators.CnpjPieces | gen.py:61-62 | each digit group and each separator of the tax id sits at its fixed offset |
| Generators.GerarAta | gen.py:64-77 | ids as given; fixed specification; supplier name is "Fornecedor " followed by the id's text, which parses back to the id; unit is a member of `Unidade`; minimum in 10..50 and below the maximum in 100..500; price 1.00 to 100.00; opening 1 to 365 days before its clock reading; deadline 30 to 365 days after its own; deadline at least 31 days after opening when the clock is monotone |
| Generators.GerarEmpenho | gen.py:79-87 | fails with the empty range exactly when the agreement's minimum exceeds its maximum; otherwise it carries the given id and the agreement's id and unit, has a quantity within the agreement's bounds, opens at its clock reading, is due 7 to 60 days after the next one, and is due after it opens when the clock is monotone |
| Generators.GerarMedicamento | gen.py:89-94 | the id as given; the name is "Medicamento " followed by text that parses back to the id; the fixed description |
| Generators.FirstMedicamento | gen.py:89-94 | medication 1 is exactly ("Medicamento 1", the fixed description) |
| Generators.GerarLote | gen.py:96-101 | id and type as given; expiry 180 to 730 days after the clock reading, hence in its future |
| Generators.GerarFluxo | gen.py:103-110 | ids as given; facility is a member of `NomeUnidade`; timestamp within 50 days after `inicio`; variation within -50..50 |
| CsvSink.AsDictKeys | gen.py:113 | `asdict` yields the declared field names in declaration order |
| CsvSink.NormalizeValue | gen.py:114-118 | the value is left scalar; scalars are kept; an enum becomes its label; a datetime becomes its ISO text |
| CsvSink.Normalize | gen.py:113-118 | the normalisation loop keeps every key and its position, and replaces each value by its normalised form |
| CsvSink.DataRowCells | gen.py:128-131 | a data line has one cell per declared field, each the normalised field value, none an enum or datetime |
| CsvSink.DataRowIsNotHeader | gen.py:128-131 | a data line never equals the header line of its record type |
| CsvSink.AppendLinesSnoc | gen.py:120-131 | one more append after a run of appends is a longer run |
| CsvSink.AppendLinesConcat | gen.py:120-131 | two runs of appends to one file equal one run of the concatenated records |
| CsvSink.HeaderRowsConcat | gen.py:128-130 | the header lines of concatenated records are the concatenated header lines |
| CsvSink.DataRowsConcat | gen.py:128-131 | the data lines of concatenated records are the concatenated data lines |
| CsvSink.AppendRowsSnoc | gen.py:120-131 | appending records one by one is appending the whole sequence |
| CsvSink.FreshFileAppends | gen.py:120-131 | N appends to a missing file give exactly one header line followed by the N data lines in order |
| CsvSink.ExistingFileAppends | gen.py:120-131 | appends to an existing file keep its lines, add no header, and add one data line per record |
| CsvSink.OtherFilesUnchanged | gen.py:127 | appending to one file leaves every other file and its existence as they were |
| CsvSink.AppendRowsConcat | gen.py:120-131 | appending in two runs equals appending in one: the header is never written twice |
| CsvSink.EmptyExistingFileGetsNoHeader | gen.py:120-130 | an existing empty file gets a data line and no header |
| CsvSink.DataRowRoundTrip | gen.py:113-131 | every data line reads back as the record it was written from |
| CsvSink.AtaRowRoundTrip | gen.py:113-131 | an agreement's data line reads back as that agreement |
| CsvSink.EmpenhoRowRoundTrip | gen.py:113-131 | a commitment's data line reads back as that commitment |
| CsvSink.FluxoRowRoundTrip | gen.py:113-131 | a flow's data line reads back as that flow |
| CsvSink.FileSystem.constructor | gen.py:120-125 | the file system starts as the given map of files |
| CsvSink.FileSystem.EscreverCsv | gen.py:112-131 | the new file system is the old one with the record appended: header plus line if the file did not exist, the line alone if it did |
| Orchestrator.GerarMedicamentos | gen.py:134 | three medications, the k-th generated with id k |
| Orchestrator.GerarAtas | gen.py:135 | three agreements, agreement k generated with id k for medication k |
| Orchestrator.GerarEmpenhos | gen.py:136 | two commitments per agreement, ids 2a-1 and 2a for agreement a, each drawn against its agreement without failing |
| Orchestrator.GerarLotes | gen.py:137 | one lot per commitment, lot k generated with id k and type "Tipo X" |
| Orchestrator.GerarFluxos | gen.py:138 | a hundred flows per lot, ids 100b-99..100b for lot b, each within the 50 days before its own clock reading |
| Orchestrator.GerarDados | gen.py:134-138 | the five collections are the dataset the run's draws determine |
| Orchestrator.DatasetLinks | gen.py:134-138 | ids run from 1 without gaps; agreement k belongs to medication k; commitment ids 2a-1 and 2a belong to agreement a and are drawn against it; flows 100b-99..100b belong to lot b; every flow timestamp is within the 50 days before its clock reading |
| Orchestrator.EscreverTodos | gen.py:140-149 | writing a collection record by record appends the whole sequence to its file |
| Orchestrator.RunMain | gen.py:133-149 | the run generates the dataset and leaves the file system with the five collections appended in source order |
| Orchestrator.WriteAllRowCounts | gen.py:140-149 | starting with none of the five files, the run leaves 4, 4, 7, 7 and 601 lines (one header plus 3, 3, 6, 6 and 600 records) and no other file changed |

## Left out

- The random module's distributions are not modelled. Each draw is a parameter constrained to its range; nothing is said about how draws are distributed.
- `datetime.now()` is a parameter, one per reading, as the source reads the clock anew each time. Nothing forces successive readings to increase, so the claims that a deadline lies after the opening date are conditional on a monotone clock.
- Generators.GerarAta: `valor_unitario` is integer cents in 100..10000, standing in for `round(random.uniform(1.0, 100.0), 2)`. Floating point is not modelled.
- CsvSink.NormalizeValue: the ISO-8601 text of an instant is kept abstract (`IsoTextV`) and is not spelled out character by character.
- CsvSink.FileSystem.EscreverCsv: a file is a sequence of lines of cells, not bytes. CSV quoting, the line terminator and UTF-8 encoding are not modelled.
- CsvSink.FileSystem.EscreverCsv: I/O errors other than a missing file (permissions, a full disk, a directory in the file's place) are not modelled.
- Orchestrator.RunMain returns the five collections so its contract can name them. The source's `main` returns nothing.
- The `if __name__ == "__main__"` entry point is not modelled.
