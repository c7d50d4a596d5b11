# ddl_parser in Dafny

A model of the core of `ddl_parser`. The program turns a SQL
`CREATE TABLE` statement into per-column metadata. It then maps every
column's source type onto a Snowflake type and a Snowflake length.

The pipeline has two stages.

1. **Metadata extraction.** There are two variants, and each is a module.
   - `InfoDdl` models the functional `info_ddl.py`.
   - `InfoDdlOop` models the class `DDLInfo` of `info_ddl_oop.py`.
   - Both read the database/schema/table header and cut the column block
     between the first `(` and the last `)`.
   - Both split that block on commas that are not nested, and collect the
     primary and foreign keys.
   - Both assemble one record per column definition, in declaration order.
   - Every regular expression is a small scanner. Its contract states the
     language the pattern accepts. The scanners shared by both variants
     live in `DdlLex`.
2. **Type conversion.**
   - `TypeTables` holds the two static type tables as ordered sequences of
     pairs, because dictionary order decides which entry wins.
     `SnowflakeConf` is `snowflake/snowflake_conf.py` and `DatatypeMap` is
     `datatype_map.py`.
   - `TypeTables` also gives the reverse index of a table for one source
     system, and proves what that index holds.
   - `Transformations` models `common_trx/transformations.py`.
     - `BuildReverseTypemap` is a loop over the table.
     - The `generate_additional_*` column builders are methods that add a
       column to a `Frames.Frame` in place.
   - `SnowflakeEngine` models the constructor of `SnowflakeExtend` in
     `snowflake/Snowflake_extension_engine.py`. It covers:
     - the empty check;
     - the conversion chain;
     - the three deterministic length overrides, applied in place with `.loc`;
     - the upper-cased field list.
   - `SnowflakeExtension` models the older `SnowflakeExtend` in
     `snowflake/Snowflake_extension.py`.
   - `FrontEnd` models `map_to_target_type` of `FE.py`. It is a first-match
     scan that answers `UNMAPPED` when no list names the type.

`Frames` models a pandas DataFrame.
- A DataFrame is a `Table` value: ordered column labels, a height, and one
  column of cells per label.
- `Frame` is the mutable object the pandas code changes in place.
- A missing value (`None`, `NaN`) is `Option.None`.
- `Core` holds `Option`, `Result`, the exceptions the pipeline raises
  (`ValueError`, `KeyError`, `AttributeError` with their messages) and the
  scalar cell values.

Python constructors that raise become `Create` methods that return a
`Result` of the new object. Each has an `Extend` method beside it, which
runs the constructor's body on an already parsed `DDLInfo`.

Some pieces are modelled as parameters:
- The table the older extension imports is not part of this model, so
  `SnowflakeExtension` takes it as a parameter.
- The labels `config.add_field_dtype`, `config.add_field_length` and
  `config.add_field_upper` are fixed labels of the model's own choosing.

### Notable behaviour of the code

- A source type that the reverse index lacks leaves a missing value in the
  new type column. It does not give the text "UNMAPPED"
  (common_trx/transformations.py:44-49). Only `map_to_target_type` answers
  `UNMAPPED`.
- In `DDLInfo`, the name `a.b` gives database `a`, no schema and table `b`.
  The optional database group is tried before the schema group
  (info_ddl_oop.py:33-43). The name is not read from the right.
- The split pattern `,(?![^()]*\))` treats a comma as a separator whenever
  the next parenthesis after it is `(`, even inside an outer pair of
  parentheses (`DdlLex.CommaBeforeOpenIsSeparator`).
- The newer engine raises `ValueError("reverse_typemap non valido")` when
  the reverse index is empty, for example for an unknown source system
  (common_trx/transformations.py:40-42). The older extension does not raise
  here: it leaves every type missing.
- The NUMBER override `'38,0'` applies only where the source `length` equals
  the integer `0` (snowflake/Snowflake_extension_engine.py:57-61). A
  missing length or a string length is not overridden.
- An empty source frame makes the older extension fail with
  `KeyError('length')` (snowflake/Snowflake_extension.py:37-38). Its
  `else: pass` does not prevent this.
- The newer engine's last step, `count_df_elements(self.dataframe_snw,
  self.snowfields)` (snowflake/Snowflake_extension_engine.py:68), groups by
  one label: the comma-joined upper-case names. That label is not a column
  unless a name happens to spell it, so the real constructor raises
  `KeyError` there for nearly every statement. The model stops before this
  call (see "## Left out").

## Model

| member | source | states |
|---|---|---|
| DdlLex.BareAt | info_ddl_oop.py:34-42 | a bare `\w+` segment is the maximal word-character run at the position, and exists iff that position holds a word character |
| DdlLex.QuotedAt | info_ddl_oop.py:34-42 | a quoted segment exists iff the opening quote is followed by a non-empty run free of the closing quote and then the closing quote; its text excludes the delimiters |
| DdlLex.SegmentAt | info_ddl_oop.py:34-42 | a name segment (backtick, double-quote, bracket or bare) that is found renders exactly the text it spans |
| DdlLex.SegmentAtReads | info_ddl_oop.py:34-42 | every segment rendered at a position is the one the scanner reads there, delimiters stripped; without brackets it is also what the column-name scanner reads |
| DdlLex.NameAt | info_ddl_oop.py:108-112 | a column name is a backtick-quoted, double-quoted or bare segment (never bracketed) rendered at the position |
| DdlLex.QuotedExact | info_ddl_oop.py:34-42 | a quote followed by a non-empty run and the first closing quote reads as exactly that run |
| DdlLex.GroupAt | info_ddl_oop.py:73 | `\(([^)]+)\)` matches at `o` iff `(` is followed by a non-`)` and a later `)`; the captured content is non-empty, free of `)`, and ends at the first `)` |
| DdlLex.GroupReads | info_ddl_oop.py:73 | a `(` followed by a `)`-free run and `)` captures exactly that run |
| DdlLex.KeyPhraseEnd | info_ddl_oop.py:73 | a key phrase is the keyword, a whitespace run and `key` |
| DdlLex.OrReplaceEnd | info_ddl_oop.py:29 | an `or replace` clause, when present, is skipped together with the whitespace after it |
| DdlLex.FillSlots | info_ddl_oop.py:33-43 | a header that fills slots always has a table, and it has a schema only if it has a database |
| DdlLex.SchemaThenTable | info_ddl_oop.py:37-43 | after the database slot, the schema slot is tried and then skipped; no schema means the table is the segment right after the database |
| DdlLex.SlotsThree | info_ddl_oop.py:33-43 | two dotted segments and a final one give database, schema and table, in that order |
| DdlLex.SlotsTwo | info_ddl_oop.py:33-43 | one dotted segment and a final one give database and table with no schema |
| DdlLex.SlotsOne | info_ddl_oop.py:41-43 | a lone segment gives only the table |
| DdlLex.FirstMatch | info_ddl_oop.py:48 | a search answers the leftmost position where the pattern matches, and nothing when no position matches |
| DdlLex.CollectAppend | info_ddl_oop.py:71-78 | collecting over two runs of definitions is the concatenation of collecting over each, so order is kept |
| DdlLex.CollectMember | info_ddl_oop.py:71-78 | an element is collected iff some definition yields it |
| DdlLex.ColumnsBlock | info_ddl.py:30-32 | the block is the text between the first `(` and the last `)` when a `(` precedes some `)`, else "" |
| DdlLex.ColumnsBlockOfStatement | info_ddl_oop.py:58-60 | for a statement whose head holds no `(` and whose tail holds no `)`, the block is exactly the body between them |
| DdlLex.NextParen | info_ddl.py:90 | the next parenthesis character after a position is found, or there is none |
| DdlLex.NextSeparator | info_ddl.py:90 | the next separating comma is found, with no separator skipped |
| DdlLex.SplitFrom | info_ddl.py:89-90 | the pieces number the separators plus one, joining them with `,` gives back the text, and the comma after every piece but the last is a separator, so the split breaks at the separators and nowhere else |
| DdlLex.SplitPointsStep | info_ddl.py:89-90 | a piece ending at a separator, put in front of pieces that break only at separators, gives pieces that break only at separators |
| DdlLex.SplitAtOnlySeparator | info_ddl.py:89-90 | with exactly one separator, the split is the text before it and the text after it, so `a,b),c` splits into `a,b)` and `c` |
| DdlLex.SplitColumnDefs | info_ddl_oop.py:62-64 | the definitions number the separators plus one, each is the trimmed piece of the split, and a block with no separator gives the whole stripped block |
| DdlLex.Definitions | info_ddl_oop.py:14-15 | a statement always gives at least one definition (an empty block gives one empty definition), and every definition is already stripped |
| DdlLex.CommaBeforeCloseIsNotSeparator | info_ddl.py:89-90 | a comma whose next parenthesis is `)` is not a separator, so `DECIMAL(10,2)` stays whole |
| DdlLex.CommaBeforeOpenIsSeparator | info_ddl.py:89-90 | a comma whose next parenthesis is `(` is a separator |
| DdlLex.ParseColumnName | info_ddl_oop.py:104-112 | a constraint-led definition has no name; otherwise the name is the leading quoted or bare segment without delimiters |
| DdlLex.ParseColumnNameReads | info_ddl.py:93-99 | a definition that is not constraint-led and starts with a name segment yields exactly that segment's text |
| DdlLex.TypeTokenAt | info_ddl_oop.py:114-121 | the type token is a non-empty letters-only run, not followed by a letter |
| DdlLex.ParseDatatype | info_ddl.py:102-108 | a parsed type is non-empty and letters only |
| DdlLex.TypeTokenReads | info_ddl.py:102-108 | after a name, whitespace and a maximal letter run, the type is that run (`DATETIME2(3)` gives `DATETIME`), and a length needs `(` right after it |
| DdlLex.ParseLengthText | info_ddl.py:111-127 | a length is a non-empty digit/comma run, and only a definition with a type has one |
| DdlLex.LengthReads | info_ddl.py:111-127 | with `(` right after the type letters, the length is the leading digit/comma run of the group (`255 char` gives `255`, `10,2` stays `10,2`) |
| DdlLex.LeadingLengthSpec | info_ddl.py:125-126 | `^[\d,]+` on the stripped content finds nothing exactly when that content is empty or starts with neither a digit nor a comma, and otherwise the longest such prefix |
| DdlLex.LengthOfGroup | info_ddl.py:117-125 | with `(` right after the type letters, the length is what `^[\d,]+` finds in the stripped group content, so spaces inside the parentheses do not matter |
| DdlLex.NoLeadingDigitsNoLength | info_ddl.py:117-127 | a group whose stripped content does not start with a digit or a comma (`VARCHAR(MAX)`) gives no length |
| DdlLex.ForeignKeyAt | info_ddl_oop.py:84-87 | a foreign-key clause has non-empty local and referenced lists free of `)` and a non-empty referenced table of non-space, non-`(` characters |
| DdlLex.ForeignKeysOfDef | info_ddl_oop.py:84-98 | a definition contributes entries if and only if the pattern matches at some position of it, and all its entries name the same referenced table |
| DdlLex.NoReferencesNoForeignKey | info_ddl_oop.py:84-88 | a definition with no `references` keyword at any position contributes no foreign-key entry, whatever `FOREIGN KEY (...)` it holds |
| DdlLex.ReferencesAt | info_ddl.py:69 | after `references` and a whitespace run, the referenced table is the longest run without whitespace or `(`: it ends at the end of the text or at such a character, so internal dots and quotes are kept; the scan resumes after the longest whitespace run that follows |
| DdlLex.ReferencesReads | info_ddl.py:69 | whitespace, `references`, whitespace and a maximal table run laid out at given positions make `references` read exactly that table |
| DdlLex.KeyPhraseReads | info_ddl_oop.py:85 | a keyword, a whitespace run and `key` laid out at given positions end the key phrase just after `key` |
| DdlLex.ForeignKeyClauseReads | info_ddl_oop.py:85 | a clause `foreign key (L) references T (R)` laid out at given positions matches there with exactly `L`, `T` and `R` as its three groups |
| DdlLex.ForeignKeyReads | info_ddl_oop.py:84-98 | when the first match of the pattern is such a laid-out clause, the definition's entries are its local and referenced lists, split at commas and stripped, zipped with the stripped table |
| DdlLex.ForeignKeyOneColumn | info_ddl.py:68-83 | `FOREIGN KEY(c) REFERENCES t(c)`, for a non-empty word column `c` and a non-empty table `t` free of whitespace and `(` that neither starts nor ends with a quote, gives exactly one entry `(c, t, c)`, the table kept as written |
| DdlLex.ForeignKeyRoles | info_ddl.py:190 | the clause `FOREIGN KEY(role_id) REFERENCES warehouse.staging.roles(role_id)` (built by `DdlLex.OneColumnClause` from its column and table) gives the single entry `(role_id, warehouse.staging.roles, role_id)` |
| DdlLex.ColumnListJoin | info_ddl_oop.py:89 | reading back a comma-joined list of entries that hold no comma and neither start nor end with a space or a quote gives the entries, in order |
| DdlLex.Zip | info_ddl_oop.py:93-98 | pairs are positional and as many as the shorter list |
| DdlLex.AppendColumns | info_ddl_oop.py:77-78 | the loop appends the stripped columns after what was collected |
| DdlLex.AppendPairs | info_ddl.py:78-83 | the loop appends one entry per zipped pair after what was collected |
| DdlLex.FirstForeignKeyOf | info_ddl_oop.py:152 | the entry found is the first whose column equals the name, and none is found iff no entry names it |
| InfoDdl.CreateTableEnd | info_ddl.py:13 | a header starts with `create`, an optional `or replace` and `table`, and ends after the whitespace that follows |
| InfoDdl.CreateTablePrefix | info_ddl.py:13 | `CREATE TABLE ` followed by a non-space is a header ending at offset 13 |
| InfoDdl.DottedAt | info_ddl.py:14-15 | a database or schema part is backtick-quoted or bare and ends with its `.` |
| InfoDdl.DottedWord | info_ddl.py:14-15 | a word run followed by `.` is a dotted part |
| InfoDdl.NoDottedWord | info_ddl.py:14-15 | a word run not followed by `.` is no dotted part |
| InfoDdl.TableAt | info_ddl.py:16 | the table is a non-empty run free of backticks, whitespace and `(`, after an optional backtick |
| InfoDdl.TableRun | info_ddl.py:16 | the table capture is the maximal such run |
| InfoDdl.GetDbSchemaTable | info_ddl.py:11-26 | a schema is reported only together with a database |
| InfoDdl.HeaderAt | info_ddl.py:12-18 | a header match starts with `create ... table`, always has a table, and has a schema only together with a database |
| InfoDdl.NoHeaderNoTable | info_ddl.py:19-21 | the table is missing iff no header matches anywhere, and then all three parts are missing |
| InfoDdl.FirstHeader | info_ddl.py:19 | the first header in the text decides the parts |
| InfoDdl.FillThree | info_ddl.py:14-16 | two dotted parts and a table fill database, schema and table |
| InfoDdl.FillTwo | info_ddl.py:14-16 | one dotted part and a table fill database and table |
| InfoDdl.SchemaAndTable | info_ddl.py:15-16 | a dotted word then a table run are read as the schema part and the table |
| InfoDdl.TableOnly | info_ddl.py:16 | a word run ended by whitespace or `(` is the table alone |
| InfoDdl.DbAndTable | info_ddl.py:14-16 | `a.b` followed by whitespace or `(` reads `a` as a dotted part and `b` as the table |
| InfoDdl.ThreePartName | info_ddl.py:11-26 | `warehouse.staging.users` gives database, schema and table in that order |
| InfoDdl.TwoPartName | info_ddl.py:11-26 | `a.b` gives database `a`, no schema and table `b` |
| InfoDdl.WordAfterKeyIsNoPrimaryKey | info_ddl.py:45 | a word between `PRIMARY KEY` and `(`, as in `CLUSTERED`, means no key columns |
| InfoDdl.PrimaryKeysOfDef | info_ddl.py:45-50 | a definition yields key columns iff the pattern matches somewhere in its trimmed text |
| InfoDdl.PrimaryKeyAt | info_ddl.py:45 | a match starts at `primary` and captures a non-empty column list without `)` |
| InfoDdl.GetPrimaryKeys | info_ddl.py:34-52 | the key columns are those collected from the statement's definitions |
| InfoDdl.CollectPrimaryKeys | info_ddl.py:43-50 | the loop collects every definition's key columns in order |
| InfoDdl.PrimaryKeysMember | info_ddl.py:43-52 | a name is a key column iff some definition yields it |
| InfoDdl.GetForeignKeys | info_ddl.py:54-85 | the foreign keys are those collected from the statement's definitions |
| InfoDdl.CollectForeignKeys | info_ddl.py:66-83 | the loop collects every definition's zipped pairs in order |
| InfoDdl.InfoOf | info_ddl.py:150-169 | a record exists iff name and type parse, and it carries them: a length only when one parsed, `is_key` Y iff the name is a key column, and the foreign fields of the first entry naming the column, else N, None, None |
| InfoDdl.FullyQualified | info_ddl.py:132-143 | the qualified name is the `.`-join of the non-empty database and schema and the table |
| InfoDdl.CollectInfos | info_ddl.py:149-170 | the loop emits the records of the definitions that have one, in definition order |
| InfoDdl.InfosOfMember | info_ddl.py:150-170 | a record is emitted iff some definition gives it |
| InfoDdl.NoPrimaryKeyNoKeyColumn | info_ddl.py:159 | without key columns every record has `is_key` N |
| InfoDdl.GetColumnsInfo | info_ddl.py:131-179 | `dict` gives the records, `dataframe` gives a frame of them, and any other `out` fails with ValueError |
| InfoDdlOop.TableKeywordEnd | info_ddl_oop.py:30-31 | `\s*table\s+` ends after the whitespace that follows `table` |
| InfoDdlOop.NoTableKeyword | info_ddl_oop.py:30-31 | a non-space other than `t` cannot start the table keyword |
| InfoDdlOop.AfterModifier | info_ddl_oop.py:30 | a modifier is accepted only when the table keyword follows it |
| InfoDdlOop.ModifiedTableEnd | info_ddl_oop.py:30-31 | an optional TEMPORARY, TEMP, TRANSIENT or DYNAMIC comes before `table` |
| InfoDdlOop.ModifierUnique | info_ddl_oop.py:30 | when a modifier and then the table keyword appear, the header ends where that keyword ends |
| InfoDdlOop.TempTaken | info_ddl_oop.py:30 | `temp` before `table` is read as that modifier, not as a prefix of `temporary` |
| InfoDdlOop.TransientTaken | info_ddl_oop.py:30 | `transient` before `table` is accepted |
| InfoDdlOop.DynamicTaken | info_ddl_oop.py:30 | `dynamic` before `table` is accepted |
| InfoDdlOop.NoModifierTaken | info_ddl_oop.py:30-31 | `table` with no modifier is accepted |
| InfoDdlOop.CreateTableEnd | info_ddl_oop.py:28-31 | a header starts with the whole word `create` and ends after `table` and its whitespace |
| InfoDdlOop.CreateWithModifier | info_ddl_oop.py:28-31 | `create`, an optional `or replace`, a modifier and `table` form a header |
| InfoDdlOop.DottedPart | info_ddl_oop.py:33-40 | a segment followed by a dot fills a prefix slot, and its text is read without delimiters |
| InfoDdlOop.DotSegmentAt | info_ddl_oop.py:33-40 | a database or schema slot is a non-empty identifier followed, after optional spaces, by a dot |
| InfoDdlOop.FinalPart | info_ddl_oop.py:41-43 | a segment with no dot after it is only a table |
| InfoDdlOop.DbSchemaTableOf | info_ddl_oop.py:26-56 | a schema is reported only together with a database |
| InfoDdlOop.HeaderAt | info_ddl_oop.py:27-46 | a header match starts with `create ... table`, always has a table, and has a schema only together with a database |
| InfoDdlOop.NoHeaderNoTable | info_ddl_oop.py:48-50 | the table is missing iff no header matches, and then all three parts are None |
| InfoDdlOop.FirstHeader | info_ddl_oop.py:48 | the first header in the text decides the parts |
| InfoDdlOop.ThreePartName | info_ddl_oop.py:33-43 | `a.b.c` with any quoting gives database a, schema b and table c, delimiters stripped |
| InfoDdlOop.TwoPartName | info_ddl_oop.py:33-43 | `a.b` gives database a, no schema and table b |
| InfoDdlOop.OnePartName | info_ddl_oop.py:41-43 | a lone name gives only the table |
| InfoDdlOop.KeyEndsWord | info_ddl_oop.py:73 | `key` is followed by a word boundary |
| InfoDdlOop.WordsBeforeColumnGroup | info_ddl_oop.py:73 | words such as `CLUSTERED` between `PRIMARY KEY` and `(` are skipped, whereas the older pattern rejects them |
| InfoDdlOop.AcceptsEveryPrimaryKey | info_ddl_oop.py:72-75 | every key clause the older extractor accepts, the class accepts with the same columns |
| InfoDdlOop.PrimaryKeysOfDef | info_ddl_oop.py:72-78 | a definition yields key columns iff the pattern matches in it |
| InfoDdlOop.PrimaryKeyAt | info_ddl_oop.py:73 | a match starts at `primary` and captures a non-empty column list without `)` |
| InfoDdlOop.CollectPrimaryKeys | info_ddl_oop.py:69-79 | the loop collects the key columns of every definition in order |
| InfoDdlOop.CollectForeignKeys | info_ddl_oop.py:81-99 | the loop collects the zipped pairs of every definition in order |
| InfoDdlOop.SameForeignKeys | info_ddl_oop.py:84-98 | on trimmed definitions both extractors find the same foreign keys |
| InfoDdlOop.StatementForeignKeys | info_ddl_oop.py:81-99 | for any statement both extractors find the same foreign keys |
| InfoDdlOop.CollectColumnNames | info_ddl_oop.py:18-22 | the names are those of the definitions that have one, in order |
| InfoDdlOop.ParseLength | info_ddl_oop.py:123-133 | the length is the parsed digit/comma text when there is one, else the integer 0 |
| InfoDdlOop.RecordOf | info_ddl_oop.py:146-166 | a record exists iff name and type parse; it carries the parts or "", the joined name, the length, `is_key` Y iff the name is a key column, and the first matching foreign entry or N, None, None |
| InfoDdlOop.SameQualifiedName | info_ddl_oop.py:140-144 | for a named table the class qualifies it exactly as the older extractor does |
| InfoDdlOop.RecordsMember | info_ddl_oop.py:146-166 | a record is emitted iff some definition gives it |
| InfoDdlOop.RecordColumnsAreNamed | info_ddl_oop.py:18-22 | every record's column is among the names the constructor stores |
| InfoDdlOop.ComputeAttributes | info_ddl_oop.py:12-22 | the attributes are computed in the constructor's order from the statement |
| InfoDdlOop.AttributesOf | info_ddl_oop.py:11-22 | the attributes `__init__` computes: the header has a schema only with a database, and there is at least one stripped definition |
| InfoDdlOop.DDLInfo.constructor | info_ddl_oop.py:11-22 | the object keeps the statement and its attributes are those of that statement |
| InfoDdlOop.DDLInfo.ToDict | info_ddl_oop.py:138-167 | the records are those of the stored attributes, and for a consistent object those of the statement |
| Frames.Put | common_trx/transformations.py:44-49 | assigning a column sets it, keeps every other column and adds the label if new |
| Frames.Get | snowflake/Snowflake_extension.py:37-40 | reading a column succeeds exactly when the label exists, gives one cell per row, and otherwise raises `KeyError` with the label |
| Frames.PutAppends | common_trx/transformations.py:44-49 | a new column goes after the existing labels |
| Frames.LocSet | snowflake/Snowflake_extension_engine.py:49-52 | a `.loc` assignment keeps the other columns and adds the label if new |
| Frames.LocSetCells | snowflake/Snowflake_extension_engine.py:49-52 | `.loc` writes the value on the selected rows and keeps the rest (missing for a new column) |
| Frames.OverwriteCommute | snowflake/Snowflake_extension_engine.py:49-61 | overwrites on disjoint row sets commute |
| Frames.OverwriteIdempotent | snowflake/Snowflake_extension_engine.py:49-52 | repeating an overwrite changes nothing |
| Frames.Frame.Assign | common_trx/transformations.py:44-49 | assigning a column changes the frame in place as `Put` says |
| Frames.Frame.LocAssign | snowflake/Snowflake_extension_engine.py:49-52 | `.loc` changes the frame in place as `LocSet` says |
| Frames.RecordsTableShape | info_ddl_oop.py:169-173 | no records give the empty frame; otherwise one row per record with one column per record key in key order |
| Frames.RecordsTable | info_ddl_oop.py:169-173 | the frame has one row per record, and it is empty exactly when there are no records |
| Frames.RecordNamesColumn | info_ddl_oop.py:169-173 | the `column_name` column lists the records' names in order |
| Frames.RecordTypesColumns | info_ddl_oop.py:169-173 | the `datatype` and `length` columns list the records' types and lengths |
| Frames.ToDataframe | info_ddl_oop.py:169-173 | the new frame holds the object's records, those of the statement when the object is consistent |
| TypeTables.AssignAt | common_trx/transformations.py:23-26 | writing one list's upper-cased tokens maps each of them to the canonical type and keeps the other keys |
| TypeTables.ReverseMap | common_trx/transformations.py:14-27 | every value of the reverse index is one of the table's canonical types |
| TypeTables.ReverseMapSnoc | common_trx/transformations.py:18-26 | processing one more entry overwrites the keys of its list for the system |
| TypeTables.ReverseMapDomain | common_trx/transformations.py:18-26 | a key is in the index iff some entry lists it (upper-cased) for the system |
| TypeTables.ReverseMapLastWins | common_trx/transformations.py:18-26 | a key maps to the canonical type of the last entry listing it |
| TypeTables.ReverseMapValue | common_trx/transformations.py:18-26 | every value is the canonical type of the last entry listing its key |
| TypeTables.UnknownSystem | snowflake/Snowflake_extension.py:57-67 | a system that no entry lists gives an empty index |
| TypeTables.ReverseMapOrderFree | common_trx/transformations.py:18-26 | without collisions, a key maps to c iff c's entry lists it, whatever the order |
| TypeTables.ListedMapsTo | common_trx/transformations.py:18-26 | without collisions, an upper-case token maps to the type of the entry listing it |
| TypeTables.UnlistedAbsent | common_trx/transformations.py:18-26 | a token no list holds is not a key |
| TypeTables.ConfNoCollision | snowflake/snowflake_conf.py:1-38 | for oracle, sql_server and snowflake no token sits under two canonical types |
| TypeTables.AvalSystemsListed | snowflake/snowflake_conf.py:40-42 | every system `AVAL_MAP_SNOW` offers has a non-empty list under some canonical type |
| TypeTables.ConfSqlServerTimestamps | snowflake/snowflake_conf.py:2-6 | DATETIME, DATETIME2 and SMALLDATETIME map to TIMESTAMP_NTZ for sql_server |
| TypeTables.ConfNumbers | snowflake/snowflake_conf.py:23-27 | FLOAT maps to NUMBER for oracle and sql_server, and BIT and MONEY do for sql_server |
| TypeTables.ConfTimeNotSnowflake | snowflake/snowflake_conf.py:19-22 | TIME lists only oracle and sql_server, so it is not a snowflake key |
| TypeTables.SpacedTokenUnreachable | snowflake/snowflake_conf.py:9 | the Oracle token with spaces never equals an upper-cased letters-only type |
| TypeTables.MapUnderscoredEmpty | datatype_map.py:4 | the shared table has no `sql_server` lists, so that index is empty |
| TypeTables.MapNoCollision | datatype_map.py:1-35 | no token sits under two canonical types for oracle, sqlserver or snowflake |
| TypeTables.MapDatetime2 | datatype_map.py:4 | DATETIME2 maps to TIMESTAMP_NTZ for sqlserver |
| TypeTables.MapSmallint | datatype_map.py:22 | SMALLINT is not a sqlserver key while SNALLINT maps to NUMBER |
| TypeTables.MapSnowflakeChar | datatype_map.py:28 | snowflake CHAR maps to VARCHAR |
| Transformations.BuildReverseTypemap | common_trx/transformations.py:14-27 | the loop builds exactly the reverse index of the table for the system |
| Transformations.DtypeColumn | common_trx/transformations.py:44-49 | a row of the new type column is missing exactly when its upper-cased `astype(str)` text is not a key of the index, and otherwise holds one of the index's canonical types |
| Transformations.LengthColumn | common_trx/transformations.py:63-66 | no row of the new length column is the integer 0, a present row is the source row unchanged, and a row is missing exactly when the source row is missing or 0 |
| Transformations.UpperColumn | common_trx/transformations.py:76 | a row of the new name column is present exactly when the source row is text, and then upper-casing leaves it unchanged |
| Transformations.WithDtype | common_trx/transformations.py:29-51 | ValueError when empty, then KeyError without `datatype`, then ValueError for an empty index; otherwise one added column whose row is the index value of the upper-cased type, missing when absent |
| Transformations.GenerateAdditionalDtypeCols | common_trx/transformations.py:29-51 | the frame is changed in place as `WithDtype` says and returned, or it is left as it was and the error is raised |
| Transformations.DtypeIsCanonical | common_trx/transformations.py:44-49 | a row's new type is missing iff no entry lists its type, and is otherwise the canonical type of the last entry listing it |
| Transformations.WithLength | common_trx/transformations.py:54-67 | ValueError when empty, KeyError without `length`; otherwise one added column equal to `length` except that null and 0 become missing |
| Transformations.GenerateAdditionalLengthCols | common_trx/transformations.py:54-67 | the frame is changed in place as `WithLength` says, or the error is raised |
| Transformations.WithUpper | common_trx/transformations.py:69-77 | ValueError when empty, KeyError without `column_name`; otherwise one added column holding each upper-cased name |
| Transformations.GenerateAdditionalUpperCols | common_trx/transformations.py:69-77 | the frame is changed in place as `WithUpper` says, or the error is raised |
| Transformations.UpperColumnIdempotent | common_trx/transformations.py:76 | upper-casing twice is upper-casing once |
| Transformations.GetElements | common_trx/transformations.py:79-94 | ValueError when empty or without the field; otherwise the column's values in row order |
| SnowflakeEngine.ApplyRuleCells | snowflake/Snowflake_extension_engine.py:49-61 | an override writes its forced length on the rows it selects and keeps every other cell |
| SnowflakeEngine.RulesDisjoint | snowflake/Snowflake_extension_engine.py:49-61 | no row is selected by two overrides |
| SnowflakeEngine.RuleMaskKept | snowflake/Snowflake_extension_engine.py:49-61 | an override does not change which rows another selects |
| SnowflakeEngine.RulesCommute | snowflake/Snowflake_extension_engine.py:49-61 | two overrides applied in either order give the same frame |
| SnowflakeEngine.UntypedLength | snowflake/Snowflake_extension_engine.py:49-61 | a row with no Snowflake type is selected by no override and keeps the built length |
| SnowflakeEngine.SnowflakeLength | snowflake/Snowflake_extension_engine.py:49-61 | a Snowflake length is never the integer 0, is missing only where the source length is missing or 0, and for an unmapped row is the cleaned source length |
| SnowflakeEngine.OverridesCells | snowflake/Snowflake_extension_engine.py:49-61 | TIMESTAMP_NTZ rows get 9, DATE rows get '', NUMBER rows with length 0 get '38,0', and every other cell is unchanged |
| SnowflakeEngine.ApplyOverrides | snowflake/Snowflake_extension_engine.py:49-61 | the three `.loc` writes change the frame in place as `Overrides` says |
| SnowflakeEngine.Overrides | snowflake/Snowflake_extension_engine.py:49-61 | the three overrides keep the frame's height and every column but the length column, and add that label if it is new |
| SnowflakeEngine.UpperNames | snowflake/Snowflake_extension_engine.py:64-66 | names are upper-cased element-wise in order, and the first non-text name raises |
| SnowflakeEngine.ConvertedOutcome | snowflake/Snowflake_extension_engine.py:31-47 | the conversion succeeds iff the frame is non-empty, has `datatype`, `length` and `column_name`, and the index is non-empty |
| SnowflakeEngine.Converted | snowflake/Snowflake_extension_engine.py:31-61 | a successful conversion keeps the frame's height, an empty frame raises the emptiness `ValueError`, and an empty index always fails |
| SnowflakeEngine.ConvertedIsPrepared | snowflake/Snowflake_extension_engine.py:40-61 | a successful conversion is the overrides applied to the three built columns |
| SnowflakeEngine.LengthStep | snowflake/Snowflake_extension_engine.py:42-46 | after the type column, the length step succeeds iff `length` exists and never leaves the frame empty |
| SnowflakeEngine.PreparedCells | snowflake/Snowflake_extension_engine.py:40-47 | the built frame adds the type, length and upper-name columns and keeps every source column |
| SnowflakeEngine.PreparedLabels | snowflake/Snowflake_extension_engine.py:40-47 | the three columns are added after the source labels |
| SnowflakeEngine.ConvertedCells | snowflake/Snowflake_extension_engine.py:40-61 | per row, the new type is the index value, the new length is the overridden length and the upper name is the upper-cased name; source columns are kept |
| SnowflakeEngine.OverriddenCells | snowflake/Snowflake_extension_engine.py:49-61 | after the overrides each row's length is the Snowflake length of its type and source length |
| SnowflakeEngine.ConvertedLabels | snowflake/Snowflake_extension_engine.py:40-47 | the converted frame's labels are the source labels and then the three new ones |
| SnowflakeEngine.ConvertedRecords | snowflake/Snowflake_extension_engine.py:31-42 | on the extractor's records the conversion succeeds iff there are records and the index is non-empty; no records is the empty-frame ValueError |
| SnowflakeEngine.ConvertedRecordLabels | snowflake/Snowflake_extension_engine.py:40-47 | on records the converted labels are the record keys and then the three new ones |
| SnowflakeEngine.ListedCells | snowflake/Snowflake_extension_engine.py:63-67 | the field list is `column_name` in row order, the upper list is its upper-cased copy, and `snowfields` is their comma join |
| SnowflakeEngine.Listed | snowflake/Snowflake_extension_engine.py:63-67 | the name lists have one entry per row of the converted frame, which needs a `column_name` column |
| SnowflakeEngine.Convert | snowflake/Snowflake_extension_engine.py:30-67 | a successful run up to line 67 gives a well-formed frame of the source's height, and an empty source raises the emptiness `ValueError` |
| SnowflakeEngine.ListedNames | snowflake/Snowflake_extension_engine.py:63-66 | the field lists are the records' names and their upper-cased forms |
| SnowflakeEngine.RecordNames | snowflake/Snowflake_extension_engine.py:63-66 | after a conversion the field lists are the records' names and their upper-cased forms |
| SnowflakeEngine.FieldsSplit | snowflake/Snowflake_extension_engine.py:67 | when no name holds a comma, splitting `snowfields` on commas gives back the upper list |
| SnowflakeEngine.ConvertFrame | snowflake/Snowflake_extension_engine.py:37-67 | the in-place chain gives the conversion of the source frame, and on success the frame holds the converted frame |
| SnowflakeEngine.ConvertRecords | snowflake/Snowflake_extension_engine.py:30-46 | for records and a system, the chain succeeds iff there are records and the system's index is non-empty, with the matching errors otherwise |
| SnowflakeEngine.RecordColumnNames | snowflake/Snowflake_extension_engine.py:63-66 | a successful chain lists the records' names and their upper-cased forms |
| SnowflakeEngine.AcceptedSystemConverts | snowflake/Snowflake_extension_engine.py:38-40 | every system `AVAL_MAP_SNOW` offers converts a non-empty statement |
| SnowflakeEngine.UnknownSystemRejected | snowflake/Snowflake_extension_engine.py:38-42 | an unknown system fails with `ValueError("reverse_typemap non valido")` |
| SnowflakeEngine.SnowflakeExtend.constructor | snowflake/Snowflake_extension_engine.py:26-67 | the object's fields hold the parsed statement and the results of the constructor's steps up to line 67 |
| SnowflakeEngine.Extend | snowflake/Snowflake_extension_engine.py:30-67 | given a parsed `DDLInfo`, the constructor's steps up to line 67 succeed iff the conversion of its records does, with that error otherwise, and set the fields to the conversion |
| SnowflakeEngine.Create | snowflake/Snowflake_extension_engine.py:26-67 | `SnowflakeExtend(ddl, source_db)` gets past line 67 iff the conversion of the statement's records succeeds, and raises that conversion's error otherwise |
| SnowflakeExtension.DtypeColumn | snowflake/Snowflake_extension.py:29-33 | a row of the type column is present exactly when the source row is text whose upper-cased form is a key of the index, and then holds one of the index's canonical types |
| SnowflakeExtension.ExtendedOutcome | snowflake/Snowflake_extension.py:28-53 | it fails only on a missing column: `datatype` in a non-empty frame, then `length`, then the type column an empty frame never got |
| SnowflakeExtension.Extended | snowflake/Snowflake_extension.py:28-53 | a successful conversion keeps the frame's height and needs a `length` column, and every failure is a `KeyError` |
| SnowflakeExtension.ExtendedCells | snowflake/Snowflake_extension.py:28-53 | per row, the type is the index value and the length is the overridden length; only the two columns are added and the rows are kept |
| SnowflakeExtension.ExtendedLabels | snowflake/Snowflake_extension.py:29-40 | the two columns are added after the source labels |
| SnowflakeExtension.ExtendedAt | snowflake/Snowflake_extension.py:28-53 | row `i` of the two new columns holds the index value and its Snowflake length |
| SnowflakeExtension.RecordsOutcome | snowflake/Snowflake_extension.py:28-40 | on records it succeeds iff there are records; no records raise `KeyError('length')` |
| SnowflakeExtension.RecordsExtended | snowflake/Snowflake_extension.py:28-53 | on records the labels are the record keys and the two new ones, with each row's type and Snowflake length |
| SnowflakeExtension.AgreesWithEngine | snowflake/Snowflake_extension.py:28-53 | where the newer engine succeeds, both give the same type and length on every row |
| SnowflakeExtension.FrameAgrees | snowflake/Snowflake_extension.py:28-53 | on a frame whose types are all strings, both conversions give the same type and length columns |
| SnowflakeExtension.EmptyIndexKeepsLengths | snowflake/Snowflake_extension.py:24-40 | with an empty index the engine fails but the older class succeeds with every type missing and lengths as built |
| SnowflakeExtension.UnmappedKeepsLengths | snowflake/Snowflake_extension.py:37-53 | rows whose type is not in the index keep a missing type and the built length |
| SnowflakeExtension.UnmappedFrame | snowflake/Snowflake_extension.py:37-53 | a frame with no mapped type keeps every built length |
| SnowflakeExtension.SqlServerDatetime | snowflake/Snowflake_extension.py:41-44 | with the stand-in table, a SQL Server DATETIME-family row gets TIMESTAMP_NTZ and length 9 |
| SnowflakeExtension.TimestampRow | snowflake/Snowflake_extension.py:41-44 | a row mapped to TIMESTAMP_NTZ gets length 9 whatever its source length |
| SnowflakeExtension.ExtendFrame | snowflake/Snowflake_extension.py:22-53 | the in-place steps give the conversion of the source frame, and on success the frame holds it |
| SnowflakeExtension.SnowflakeExtend.constructor | snowflake/Snowflake_extension.py:20-36 | the two frame fields name one frame, which holds the converted frame, and the type table is stored |
| SnowflakeExtension.Extend | snowflake/Snowflake_extension.py:22-53 | given a parsed `DDLInfo`, the constructor succeeds iff the conversion of its records does, and raises that conversion's error otherwise |
| SnowflakeExtension.Create | snowflake/Snowflake_extension.py:20-53 | `SnowflakeExtend(ddl, source_db)` succeeds iff the conversion of the statement's records does, and raises that conversion's error otherwise |
| FrontEnd.FirstListing | FE.py:10-15 | the scan answers the first match of the token in table order |
| FrontEnd.MapToTargetType | FE.py:6-15 | the lookup lower-cases the system and upper-cases the type before the scan |
| FrontEnd.FirstMatch | FE.py:10-15 | the scan answers one of the table's canonical types or `UNMAPPED` |
| FrontEnd.TargetType | FE.py:6-15 | `map_to_target_type` answers a canonical type of the shared table or `UNMAPPED` |
| FrontEnd.FirstMatchSpec | FE.py:10-15 | the answer is the type of the first entry listing the token, or `UNMAPPED` when no entry lists it |
| FrontEnd.FirstMatchAt | FE.py:10-13 | when entry `i` lists the token first, the answer is entry `i`'s type whatever later entries list |
| FrontEnd.UnmappedIffUnlisted | FE.py:15 | when no canonical type is `UNMAPPED`, the answer is `UNMAPPED` iff no entry lists the token |
| FrontEnd.AgreesWithReverse | FE.py:10-15 | without collisions the answer is the reverse index's value, or `UNMAPPED` for an absent key |
| FrontEnd.FirstAgainstLast | FE.py:10-15 | on a collision the scan answers the first entry's type while the reverse index holds the last's |
| FrontEnd.CaseInsensitive | FE.py:7-8 | the case of neither argument changes the answer |
| FrontEnd.TargetTypeAgrees | FE.py:6-15 | for oracle, sqlserver and snowflake in any case, the lookup answers the reverse index's value or `UNMAPPED` |
| FrontEnd.UnderscoredUnmapped | FE.py:6-15 | the system spelled `sql_server` gets `UNMAPPED` for every type |
| FrontEnd.SqlServerDatetime2 | FE.py:6-15 | `datetime2` under sqlserver, in any case, gives TIMESTAMP_NTZ |
| FrontEnd.SqlServerSmallint | FE.py:6-15 | `smallint` under sqlserver gives `UNMAPPED` |

## Left out

- Logging, `os.makedirs`, the date-stamped log file names and the `mainconfig.config` module are not part of this model. The `config.add_field_*` labels are fixed labels here.
- The Streamlit user interface in FE.py:18-75, the `print` calls in `get_columns_info`, the `__main__` demo blocks and the `to_html` file writes are I/O and are left out.
- The module `snowflake.snowflake_datatype_map` that snowflake/Snowflake_extension.py:2 imports is not part of this model. `SnowflakeExtension` takes its table as a parameter, and `SqlServerDatetime` uses the `snowflake_conf.py` table as a stand-in.
- SnowflakeEngine.Create, SnowflakeEngine.Extend, SnowflakeEngine.SnowflakeExtend.constructor: `count_df_elements` (common_trx/transformations.py:96-102) and its call at snowflake/Snowflake_extension_engine.py:68 rely on pandas `groupby` and are left out, so the model's constructor ends after `snowfields` (line 67) and has no `count_element_transformed` field. Its success therefore means success up to line 67. The real call groups by the single label `snowfields`, the comma-joined upper-case names. pandas raises `KeyError` unless that string happens to be a column label, so `CREATE TABLE t (a INT, b INT)` raises `KeyError('A,B')` there. The real constructor thus fails on nearly every input the model accepts.
- pandas column ordering beyond appending new labels and dtype coercion are not modelled. `astype(str)` is modelled in the newer path only: `Transformations.AsStr` writes a missing cell as `None`, as for a `None` object, where pandas would write a NaN cell as `nan` (cells built from records are never NaN), and an integer as its digits, and `Transformations.DtypeCell` upper-cases that text and looks it up. The older `SnowflakeExtension.DtypeCell` has no `astype(str)`, so there a non-string type cell maps to a missing value.
- `InfoDdl.GetColumnsInfo`: the `out` parameter has no default, where the source defaults it to `dataframe`; callers pass it explicitly. The `dataframe` output is the record sequence wrapped as a frame. The pandas column selection at info_ddl.py:176-177 is not modelled.
- Inheritance from `DDLInfo` is modelled by composition: `SnowflakeExtend` keeps the parsed `DDLInfo` in its `info` field.
- `Transformations.GenerateAdditionalDtypeCols`, `SnowflakeEngine.ConvertFrame`, `SnowflakeExtension.ExtendFrame`: these do not state the frame's contents after a failure part-way through the chain. Only the error is stated, because the program drops the frame when it raises.
- General Python regular-expression and backtracking semantics are not modelled. Only the specific patterns are, as scanners over ASCII character classes (`\w`, `\s`, letters, case folding).
- Text.Upper, Text.Lower: `str.upper()` and `str.lower()` are modelled on ASCII letters only, one character for one. Python follows Unicode: it upper-cases `à` to `À` and maps `ß` to `SS`, which changes the length. So for names or types with non-ASCII letters, the upper-cased columns and lists differ from Python's. This affects `Transformations.DtypeCell`, `Transformations.UpperCell`, `SnowflakeEngine.UpperNames`, `SnowflakeExtension.DtypeCell`, `TypeTables.Assign` and `FrontEnd.MapToTargetType`. A quoted name such as `` `Città` `` gives `CITTà` in the model and `CITTÀ` in Python.
- A text holding several statements, where the first `(` and the last `)` cross statement boundaries, is not treated specially. The column block is still cut as the code cuts it.
- InfoDdl.GetDbSchemaTable: its own contract states only that a schema comes with a database. What each header shape yields is stated by InfoDdl.NoHeaderNoTable, InfoDdl.FirstHeader, InfoDdl.ThreePartName, InfoDdl.TwoPartName and the slot lemmas beside them.
- InfoDdlOop.DbSchemaTableOf: its own contract states only that a schema comes with a database. What each header shape yields is stated by InfoDdlOop.NoHeaderNoTable, InfoDdlOop.FirstHeader, InfoDdlOop.ThreePartName, InfoDdlOop.TwoPartName and InfoDdlOop.OnePartName.
- DdlLex.FillSlots: its own contract states only the table and database conditions. The slot each name part lands in is stated by DdlLex.SlotsThree, DdlLex.SlotsTwo, DdlLex.SlotsOne and DdlLex.SchemaThenTable.
- DdlLex.ParseColumnName, DdlLex.ParseDatatype, DdlLex.ParseLengthText: their own contracts state the shape of the captured text. The exact text captured is stated by DdlLex.ParseColumnNameReads, DdlLex.TypeTokenReads, DdlLex.LengthReads, DdlLex.LengthOfGroup and DdlLex.NoLeadingDigitsNoLength (the no-length case).
- DdlLex.ForeignKeyAt, DdlLex.ReferencesAt, DdlLex.KeyPhraseEnd, DdlLex.OrReplaceEnd: their own contracts state the character classes of what they capture and skip (DdlLex.ReferencesAt also that its runs are maximal), not the whole match. What a laid-out clause captures is stated by DdlLex.ForeignKeyClauseReads, DdlLex.ReferencesReads, DdlLex.KeyPhraseReads and DdlLex.GroupReads; the entries it yields by DdlLex.ForeignKeyReads; a one-column clause by DdlLex.ForeignKeyOneColumn and DdlLex.ForeignKeyRoles; the no-match case by DdlLex.NoReferencesNoForeignKey. The optional `constraint name` prefix is not scanned: `re.search` finds the same groups with or without it.
- InfoDdl.CreateTableEnd, InfoDdlOop.CreateTableEnd: their contracts state what a header starts and ends with. The modifier and `or replace` cases are stated by InfoDdl.CreateTablePrefix, InfoDdlOop.CreateWithModifier and the InfoDdlOop modifier lemmas.
