# html-index in Dafny

A model of the `html-index` crate's document builder (`src/lib.rs`). A
`Builder` holds a body fragment (which the caller supplies with its own
`<body></body>` tags) and an optional, already rendered description meta
tag. `Build` emits the HTML5 doctype, a bare `<html>` root, a head holding
only the fixed charset and viewport meta tags, the body, and `</html>`,
with no separators between them.

The model is one module, `HtmlIndex` in `html_index.dfy`:

- the seven boilerplate constants, with the source's exact text;
- `Builder`, a class with fields `body: string` and `desc: Option<string>`.
  Its constructor is `new`. `Description` overwrites `desc` in place. `Build`
  grows a local string by one append per fragment, in the source's order;
- `Document(body)`, the specification of `Build`, and `DescriptionTag(d)`,
  the specification of the stored tag;
- `BodyOf` and `DescriptionContent`, parsers that read the caller's text
  back out. They are the partners of the two renderings: the round-trip
  and soundness lemmas show that each rendering is a bijection onto the
  strings its parser accepts.

The code differs from the API that the repository's test and demo call
(a zero-argument `new`, `raw_body`, `script`, `style`). The model follows
the code as written:
- the root tag is the bare `<html>` (`src/lib.rs:10`);
- the stored description is never emitted by `build` (`src/lib.rs:34-44`).

Nothing is escaped. The body and the description text are inserted
verbatim, so markup in them passes straight into the output. Callers must
escape untrusted text themselves.

## Model

| member | source | states |
|---|---|---|
| `HtmlIndex.Builder.constructor` | src/lib.rs:23-25 | the new builder's body is exactly the argument and it has no description |
| `HtmlIndex.Builder.Description` | src/lib.rs:28-31 | `desc` becomes `Some` of the description meta tag for `d`, whatever was there before; `body` is unchanged |
| `HtmlIndex.Builder.Build` | src/lib.rs:34-44 | the appended output equals `Document(body)`: doctype, `<html>`, `<head>`, charset, viewport, `</head>`, body, `</html>`, with no separators and without the description |
| `HtmlIndex.DocumentBrackets` | src/lib.rs:35-42 | for every body the output starts with `<!DOCTYPE html>` and ends with `</html>` |
| `HtmlIndex.DocumentLayout` | src/lib.rs:7-13 | the output length is the sum of the seven constants' lengths plus the body's; the preamble is 126 characters and the body appears verbatim at offset 126 |
| `HtmlIndex.BodyOfDocument` | src/lib.rs:41 | reading the body back out of a built document gives exactly the body |
| `HtmlIndex.BodyOfSound` | src/lib.rs:35-42 | every string from which a body can be read is the document built from that body |
| `HtmlIndex.DocumentInjective` | src/lib.rs:41 | different bodies build different documents |
| `HtmlIndex.DescriptionRoundTrip` | src/lib.rs:29 | the description text is inserted verbatim, without escaping: it reads back unchanged from the tag |
| `HtmlIndex.DescriptionContentSound` | src/lib.rs:29 | every string from which a description can be read is the tag rendered from it |
| `HtmlIndex.DescriptionTagInjective` | src/lib.rs:29 | different description texts render to different tags |
| `HtmlIndex.LastDescriptionWins` | src/lib.rs:28-31 | after `description(a)` then `description(b)` the stored tag is the rendering of `b` alone, and the body is still the one given to `new` |
| `HtmlIndex.BuildIgnoresDescription` | src/lib.rs:34-44 | builders with the same body build the same document with no description or with either of two descriptions |

## Left out

- `HtmlIndex.Builder.Build`: Rust's `build(self)` consumes the builder, so a second build cannot compile. The model's `Build` only reads the builder and does not capture this ownership transfer.
- Lifetimes: the borrowed `&'b str` body is modelled as a copied `string`.
- The crate attributes (`src/lib.rs:1-5`) are compile-time configuration with no run-time behaviour.
- `HtmlIndex.Builder`: the derived `Clone` and `Debug` impls (`src/lib.rs:15`) are not modelled; the class is a reference, so copying it aliases the builder instead of cloning it.
- `tests/test.rs` and `examples/main.rs` call an API that `src/lib.rs` does not define (`new()` without arguments, `raw_body`, `script`, `style`). Their expected output fixture is not part of this model. The demo's only effect is printing.
- Strings are sequences of characters. UTF-8 encoding and byte lengths are not modelled.
