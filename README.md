# Prompt builder and output file names of the synthetic dataset generator

The generator asks a text-generation backend for a JSON array of invented
records and saves the records as a CSV file. This project models the two
pure parts of `app.py`:

- `build_prompt(dataset_type, size)`. It files five prompt templates under
  their dataset-type keys ("Customer Records", "Financial Transactions",
  "Tax Payer Records", "Healthcare Patients", "E-commerce Orders"). Each
  template is an f-string with the requested size and that type's example
  JSON spliced in. A key that is not filed raises `ValueError("Unknown
  dataset type: …")`. The model returns `Err(UnknownDatasetType(key))`
  instead.
- `DATASET_TYPES`, the choices the web form offers.
- The name of the saved file: `"synthetic_"`, then the dataset type
  lower-cased with every space replaced by `_`, then `"_"`, then the size,
  then `".csv"`.

The modules:

- `Decimal`: Python's `str(n)`, and the `{size}` of an f-string, for an
  integer. It comes with a reference reading (`ParseInt`) that recovers the
  number.
- `Seqs`: slicing facts about concatenation, and `OccursAt(x, s, k)`, which
  says that `x` stands in `s` starting at index `k`.
- `Prompts`: the five templates, `build_prompt` and `DATASET_TYPES`.
  - The requirement text and example array of each template are the
    source's own text, character for character.
  - A `Template` holds the parts that differ between types. `Render` puts
    them together exactly as the f-strings do.
  - Facts about the layout are proved once for every template, then
    applied to each of the five.
- `Filenames`: `str.lower()`, `str.replace(' ', '_')` and the file name.

The code lower-cases the type and replaces its spaces (`app.py:204`), and
the model follows it. `build_prompt` does not check the size, so the model
accepts any integer and renders a negative one with a minus sign, as `str`
does.

## Model

| member | source | states |
|---|---|---|
| Decimal.NatToString | app.py:95 | the decimal text of a size is non-empty and all digits; it starts with 0 only for zero, which renders as exactly "0" |
| Decimal.NatToStringRoundTrip | app.py:95 | reading the digits of `n` back as a number gives `n` |
| Decimal.IntToString | app.py:95 | `str(i)`, the `{size}` of every template and of the file name, is sign-and-digits text that `ParseInt` reads back as `i`, with a minus sign exactly when `i` is negative |
| Decimal.IntToStringShape | app.py:95 | `str(i)` has no padding: after the optional minus sign come digits that start with 0 only for zero, and zero renders as exactly "0" |
| Decimal.IntToStringInjective | app.py:204 | two different sizes never render the same |
| Prompts.Message | app.py:182 | the error text is "Unknown dataset type: " followed directly by the key, which ends the text: its length is the two lengths added, so nothing stands between them |
| Prompts.DatasetTypes | app.py:188-194 | the form offers five entries, none twice, and every dataset type's key is among them |
| Prompts.Templates | app.py:93-180 | the templates dictionary files each type under its own key, and every key it holds names the type filed under it |
| Prompts.TemplateFor | app.py:93-183 | the lookup fails exactly when the key is not one of the five offered types; the failure carries the key; a successful lookup selects exactly the type with that key |
| Prompts.BuildPrompt | app.py:181-183 | `build_prompt` reports the unknown-type error exactly for keys outside `DATASET_TYPES`, with the message "Unknown dataset type: " followed by the key; any prompt it returns is the template of the type the key names |
| Prompts.BuildPromptSelects | app.py:93-183 | each of the five keys returns its own type's template rendered for the requested size |
| Prompts.DatasetTypesMatchTemplates | app.py:188-194 | the form offers exactly the keys of the templates dictionary, and each entry names the type filed under it |
| Prompts.Render | app.py:94-179 | a rendered template opens with "\nGenerate ", followed at once by the decimal size and then " realistic " and the subject; the requirement text starts where that first line ends; the example stands right after "**EXAMPLE OUTPUT:**\n", which directly follows the requirement text; a template that repeats the size ends with "<size> objects:\n" |
| Prompts.Prompt | app.py:93-180 | each of the five prompts opens with "\nGenerate ", the decimal size and " realistic " with that type's subject, carries that type's requirement text right after the first line and that type's example JSON under the example heading, and for customer records ends with "<size> objects:\n" |
| Prompts.RenderSeparatesSubjects | app.py:95-164 | templates whose subjects start with different letters render different prompts |
| Prompts.SubjectsDistinct | app.py:95-164 | the five subjects start with five different letters |
| Prompts.PromptsDistinct | app.py:93-180 | for the same size, two different dataset types never give the same prompt |
| Filenames.LowerChar | app.py:204 | lower-casing a character leaves no ASCII capital: it shifts A-Z to a-z and keeps every other character |
| Filenames.Lower | app.py:204 | `str.lower()` keeps the length and lower-cases each character in place |
| Filenames.ReplaceChar | app.py:204 | `str.replace` of one character by another keeps the length, puts the new character at every occurrence of the old one and changes nothing else |
| Filenames.Slug | app.py:204 | the type part of the file name has the type's length and contains no space and no ASCII capital; at each position a space became `_` and any other character was lower-cased |
| Filenames.OutputFilename | app.py:204 | the file name is "synthetic_", the type part, "_" and the decimal size, and ".csv", in that order, with nothing else |
| Filenames.SizeDeterminesFilename | app.py:204 | for one dataset type, two sizes give the same file name exactly when they are equal |
| Filenames.SameFilenameSameInitial | app.py:204 | equal file names have type parts with the same first character, the one right after "synthetic_" |
| Filenames.SlugInitial | app.py:188-204 | the type part of each offered type starts with that type's lower-case initial (c, f, t, h or e) |
| Filenames.InitialsDistinct | app.py:188-194 | two offered types have the same initial exactly when they are equal |
| Filenames.FilenamesDistinct | app.py:188-204 | two offered types at two sizes give the same file name exactly when both the type and the size agree |

## Left out

- The environment file and the API key (`app.py:9-13`): these read the process environment.
- The backend client and the `MODELS` table (`app.py:16-28`): these are network configuration.
- `generator.generate` and its retries, response cleaning and validation (`app.py:7`, `app.py:186`, `app.py:197-203`, `app.py:213-219`): `data_generator_lib` is not part of this model.
- Writing the CSV file with `df.to_csv` (`app.py:205`) and `predict`'s `df.to_dict` (`app.py:220`): these are file I/O and pandas.
- The Gradio interface (`app.py:222` onward): this is UI code.
- The size's type: the model takes an integer. If the form's slider hands over a float, Python renders it as `50.0` in both the prompt and the file name, and the model does not cover that case.
- Filenames.Lower: models `str.lower()` for the ASCII capitals A-Z only. Python lower-cases every Unicode letter, but the five offered types use ASCII only.
- Decimal.IntToString: renders every integer. CPython by default refuses to convert an integer of more than 4300 digits to text and raises `ValueError` ("Exceeds the limit (4300 digits) for integer string conversion"). In the source that happens in every template (`app.py:94-180`) and in the file name (`app.py:204`). The form's slider offers only 5 to 50 (`app.py:240-247`).
- Prompts.BuildPrompt: Python renders all five f-strings before the key check (`app.py:93-181`). The model checks the key first and then renders the one selected template. The two agree for every size Python can render. For a size of more than 4300 digits, Python raises the integer-conversion `ValueError` for every key, even an unknown one, while the model returns the prompt or the unknown-type error.
- The error is a value (`Err(UnknownDatasetType(key))`) rather than a raised `ValueError`. `Prompts.Message` gives the text the exception carries.
- Prompts.Prompt: the proofs treat each type's requirement text and example array as whole blocks. `Prompt` and `Render` state where each block stands in the prompt, but nothing about the field rules written inside them.
