# Steel member design checks (CIRSOC 301 / AISC 360-10) — a Dafny model

This project models the calculation core of a Python tool that checks rolled steel
profiles against CIRSOC 301 (the Argentine adaptation of AISC 360-10). The tool reads
profiles from two tables (CIRSOC and AISC). From a profile's row it extracts a
dictionary of section properties in SI millimetre units and checks that the row has
what each check needs. It then performs five calculations:

- It classifies the section's plate elements as compact, non-compact or slender
  (AISC Table B4.1).
- It computes the design axial compression strength. This covers flexural,
  torsional and flexural-torsional buckling (chapter E), with an iterated Q factor
  for slender sections.
- It computes the design strong-axis flexural strength. This covers lateral-torsional
  buckling and flange local buckling (sections F2 and F3), plus a simplified rule for
  angles (section F10).
- It checks combined compression and bending (section H1.1).
- For serviceability, it tabulates the admissible loads for deflection limits L/n.

Each Dafny module follows one source file:

| module | file | form |
|---|---|---|
| `Classification` | `clasificacion_seccion.py` | functions and lemmas |
| `Profile` | `utilidades_perfil.py` | functions, plus methods for the property check loops |
| `Compression` | `compresion.py` | functions for the formulas; methods for the Q iteration loop and the step sequence |
| `Flexure` | `flexion.py` | functions for the formulas; methods for the step sequence |
| `Interaction` | `interaccion.py` | functions, lemmas and one method |
| `Serviceability` | `serviciabilidad.py` | functions, with a method for the table loop |
| `Store` | `gestor_base_datos.py` | a class `ProfileStore` holding the two tables and the active database name, which `ChangeDatabase` updates in place |

Six support modules round this out:

- `Wrappers` (`Option` and `Result`, in `wrappers.dfy`)
- `RealMath` (real helpers and the transcendental functions, in `common.dfy`)
- `Rows` (a table row as a map from column name to cell)
- `Tags` and `Diagnostics` (families, databases, errors and warnings, in `tags.dfy`)
- `Text` (upper-casing and stripping of strings)

Exceptions raised by the source are `Err` values of `Result`. This includes
ValueError, KeyError, ZeroDivisionError and TypeError. Its warning strings are
`Diagnostics.Warning` values, listed in the order the source appends them.

√, π and 0.658^x are not computed. They are fields of `RealMath.Analytic`, which
every formula receives as a parameter. The ghost predicate `RealMath.Sound` states
the facts the lemmas rely on:

- √ is non-negative and monotone, and squares back.
- 3.14 < π < 3.15.
- 0 < 0.658^x ≤ 1, and 0.658^x decreases for x ≥ 0.

The Q factor of slender sections comes from `calcular_Q`. That function is not part
of this model, so it is a parameter `calcQ` (from Fcr to Q, Qs and Qa).

## Model

| member | source | states |
|---|---|---|
| Classification.ElementLimitsSound | python/clasificacion/clasificacion_seccion.py:25-71 | for E, Fy > 0 each element's limits satisfy 0 < λp < λr, each being its Table B4.1 coefficient times √(E/Fy) (stated by squares) |
| Classification.ClassifyElement | python/clasificacion/clasificacion_seccion.py:78-98 | compact exactly when λp exists and λ ≤ λp; slender exactly when not compact and λ > λr; non-compact otherwise |
| Classification.ClassifyElementMonotone | python/clasificacion/clasificacion_seccion.py:85-90 | a larger slenderness never gives a better class |
| Classification.ClassifyElementZones | python/clasificacion/clasificacion_seccion.py:85-90 | with λp < λr the three classes are exactly the zones λ ≤ λp, λp < λ ≤ λr and λ > λr |
| Classification.MakeElement | python/clasificacion/clasificacion_seccion.py:91-98 | the element record keeps the name, λ, λp and λr, and its class is `ClassifyElement` of them |
| Classification.SectionClass | python/clasificacion/clasificacion_seccion.py:179-185 | the section class is the worst element class, is attained by some element, and is compact for no elements |
| Classification.FlangeAndWeb | python/clasificacion/clasificacion_seccion.py:133-156 | I-shape and channel branches: a KeyError for the first missing ratio of bf/2tf and hw/tw, otherwise the flange and web elements with their own limits |
| Classification.ClassifySection | python/clasificacion/clasificacion_seccion.py:105-195 | ValueError for a tipo outside the I-shape, channel and angle lists; otherwise it fails exactly when `ElementsOf` fails, with its error, and its elements are those of `ElementsOf`; the class is the worst element class and is attained, `es_esbelta` holds exactly for a slender class, the angle warning is there only for "L", and there are two elements (one for angles) |
| Classification.ElementsOf | python/clasificacion/clasificacion_seccion.py:126-176 | I-shapes give the flange bf/2tf and web hw/tw elements with the I-shape limits, channels the flange bf/tf and web hw/tw elements with the channel limits, "L" the leg b/t element with the λp note; a missing bf_2tf, then hw_tw (or b_t for angles) is the KeyError; Fy = 0 is a ZeroDivisionError; any other tipo a ValueError |
| Classification.FamilyOfClassifiedTipo | python/core/utilidades_perfil.py:43-51 | every tipo classification accepts extracts to the matching family (I-shape, channel or angle) |
| Classification.WellFormedPropsClassify | python/clasificacion/clasificacion_seccion.py:172-176 | for well-formed properties whose family agrees with the tipo, classification succeeds exactly when the tipo is one it lists |
| Classification.ExtractedPropsClassify | python/clasificacion/clasificacion_seccion.py:133-170 | properties extracted from any row classify without a KeyError when the tipo is a classified one |
| Profile.FirstFamily | python/core/utilidades_perfil.py:95-99 | the family table search yields DESCONOCIDA exactly when no entry lists the tipo, and otherwise the family of the first entry that lists it |
| Profile.HssFamily | python/core/utilidades_perfil.py:75-92 | an HSS row is always a square or a rectangular tube |
| Profile.DetermineFamily | python/core/utilidades_perfil.py:67-99 | "HSS" with a row goes by the tube rule; every other tipo goes by the family table |
| Profile.HssSquareRule | python/core/utilidades_perfil.py:75-92 | with B > 0, an HSS is square exactly when abs(d − B) < 0.05·max(d, B, 1) |
| Profile.HssWithoutWidthIsSquare | python/core/utilidades_perfil.py:75-92 | an HSS without a usable B is classed as a square tube |
| Profile.FamilyOfListedTipo | python/core/utilidades_perfil.py:95-99 | a non-HSS tipo listed first by entry i gets entry i's family |
| Profile.FirstAvailable | python/core/utilidades_perfil.py:288-293 | the first alternative column with a number gives its value times its factor; with none, the default |
| Profile.Read | python/core/utilidades_perfil.py:271-297 | a key without a column gives the default, a column gives its number times the factor (the default times the factor when empty), alternatives go by `FirstAvailable` |
| Profile.Lookup | python/resistencia/compresion.py:209-217 | a property dictionary lookup succeeds exactly when the key is present, gives its value, and otherwise is the KeyError of that key |
| Profile.ExtractDobleTWellFormed | python/core/utilidades_perfil.py:349-388 | the I-shape extraction fills every key its family needs |
| Profile.ExtractCanalWellFormed | python/core/utilidades_perfil.py:393-463 | the channel extraction fills every key its family needs |
| Profile.ExtractAngularWellFormed | python/core/utilidades_perfil.py:468-517 | the angle extraction fills every key its family needs |
| Profile.ExtractPerfilTWellFormed | python/core/utilidades_perfil.py:522-560 | the tee extraction fills every key its family needs |
| Profile.ExtractSymmetricTubeWellFormed | python/core/utilidades_perfil.py:565-657 | the circular and square tube extractions fill every key their family needs |
| Profile.ExtractTuboRectWellFormed | python/core/utilidades_perfil.py:662-704 | the rectangular tube extraction fills every key its family needs |
| Profile.ExtractByFamily | python/core/utilidades_perfil.py:349-704 | each family's branch gives well-formed properties tagged with the tipo and family |
| Profile.ExtractProperties | python/core/utilidades_perfil.py:304-712 | a KeyError without a Tipo column; a ValueError for a database other than CIRSOC or AISC (after upper-casing); a ValueError for an unknown family; otherwise well-formed properties with the stripped tipo and its family |
| Profile.PolarRadiusSquare | python/core/utilidades_perfil.py:381 | for I-shapes ro ≥ 0 and ro² = (Ix + Iy)/Ag |
| Profile.DobleTShearCentre | python/core/utilidades_perfil.py:378-384 | I-shapes have xo = yo = 0, H = 1 and ro from `PolarRadius` |
| Profile.ChannelShearCentreBounds | python/core/utilidades_perfil.py:444-448 | the computed channel values are xo = abs(x − eo), ro > 0 with ro² = xo² + (Ix + Iy)/Ag, and 0 < H ≤ 1 |
| Profile.ComputedChannelShear | python/core/utilidades_perfil.py:432-448 | channels without positive tabulated ro and H use the computed shear centre, with ro > 0 and 0 < H ≤ 1 for positive area and inertia |
| Profile.TabulatedChannelShear | python/core/utilidades_perfil.py:432-443 | AISC channels with positive tabulated ro and H keep them, and xo² = (1 − H)·ro² when H ≤ 1 |
| Profile.ChannelFlangeRatioFixed | python/core/utilidades_perfil.py:413-416 | a zero tabulated bf/2tf is replaced by bf/(2·tf), which is positive when bf and tf are; a non-zero one is kept |
| Profile.Absent | python/core/utilidades_perfil.py:750-753 | the missing names are exactly the listed names that are not available, in order |
| Profile.MissingWarnings | python/core/utilidades_perfil.py:755-759 | one warning per missing optional name, in order |
| Profile.CheckRequired | python/core/utilidades_perfil.py:750-753 | the loop collects `Absent` of the required names and reports completeness exactly when every required name is available |
| Profile.CheckOptional | python/core/utilidades_perfil.py:755-759 | the loop collects a warning for each absent optional name |
| Profile.VerifyProperties | python/core/utilidades_perfil.py:740-761 | `completo` holds exactly when every required name of the family is available; `faltantes` and `advertencias` are the absent required and optional names |
| Profile.AbsentSnoc | python/core/utilidades_perfil.py:750-753 | one more name extends the missing list by that name exactly when it is unavailable |
| Profile.MissingWarningsAppend | python/core/utilidades_perfil.py:755-759 | the warnings of two lists are the concatenation of each list's warnings |
| Profile.FamiliesListTheirNames | python/core/utilidades_perfil.py:719-737 | every family's extraction makes all its required and optional names available |
| Profile.AllListed | python/core/utilidades_perfil.py:750-753 | when every name is available, nothing is missing |
| Profile.ExtractedPropsVerify | python/core/utilidades_perfil.py:740-761 | properties extracted from any row pass the verification with nothing missing and no warning |
| Compression.FeFlexuralSound | python/resistencia/compresion.py:51-54 | Fe = π²E/(KL/r)² is positive and returns KL/r alongside it |
| Compression.FeFlexuralDecreasing | python/resistencia/compresion.py:51-54 | a larger abs(KL/r) gives a smaller or equal Fe |
| Compression.FeTorsionalPositive | python/resistencia/compresion.py:57-64 | torsional Fe is positive for positive area and J or Cw positive |
| Compression.DiscriminantRange | python/resistencia/compresion.py:67-73 | with 0 < H ≤ 1 the discriminant 4·Fey·Fez·H/(Fey + Fez)² lies in (0, 1], so its square root is real |
| Compression.FeFlexTorsionalSymmetric | python/resistencia/compresion.py:67-73 | flexural-torsional Fe is symmetric in Fey and Fez |
| Compression.FeFlexTorsionalBounds | python/resistencia/compresion.py:67-73 | with 0 < H ≤ 1, 0 < Fe ≤ min(Fey, Fez): the flexural-torsional mode never exceeds either mode it combines |
| Compression.CriticalStressRegimes | python/resistencia/compresion.py:76-84 | Fcr = 0.658^(QFy/Fe)·QFy for QFy/Fe ≤ 2.25, else 0.877·Fe, and 0 < Fcr ≤ QFy |
| Compression.FcrRegimes | python/resistencia/compresion.py:76-84 | the same regimes and bound 0 < Fcr ≤ Q·Fy for `_calcular_Fcr(Fe, Fy, Q)` |
| Compression.DesignStrengthBound | python/resistencia/compresion.py:445-447 | 0 < Pd = 0.90·Fcr·A ≤ 0.90·Q·Fy·A |
| Compression.Governing | python/resistencia/compresion.py:368-369 | the governing mode has the least Fe, and it is the first such mode, as `min(..., key=...)` picks it |
| Compression.ReadSectionValues | python/resistencia/compresion.py:209-217 | step 5 reads A, rx, ry, J, Cw, xo, yo, ro and H, or fails with the KeyError of a missing one |
| Compression.WellFormedSectionValues | python/resistencia/compresion.py:209-217 | well-formed properties always have the step 5 values |
| Compression.GovernGoverns | python/resistencia/compresion.py:368-369 | the reported Fe is that of the governing mode |
| Compression.Torsional | python/resistencia/compresion.py:57-64 | torsional Fe, or a ZeroDivisionError exactly when Kz·Lz or Ag·ro² is zero |
| Compression.Flexural | python/resistencia/compresion.py:51-54 | flexural Fe and KL/r, or a ZeroDivisionError exactly when KL or r is zero |
| Compression.IShapeBuckling | python/resistencia/compresion.py:349-371 | I-shapes: the modes flexural X, flexural Y and torsional Z, the least governs, slenderness max(KxLx/rx, KyLy/ry); ZeroDivisionError exactly for a zero divisor |
| Compression.ChannelBuckling | python/resistencia/compresion.py:376-404 | channels: flexural X and flexural-torsional (replaced by flexural Y, with the fallback flag, when ro or H is missing or not positive); the least governs |
| Compression.AngleBuckling | python/resistencia/compresion.py:409-418 | angles: one flexural mode about the minor axis with KL = max(KxLx, KyLy, KzLz); a KeyError without iv |
| Compression.GlobalBuckling | python/resistencia/compresion.py:342-424 | the step 7 branch of the family; a ValueError for any other family |
| Compression.IShapeBucklingPositive | python/resistencia/compresion.py:349-371 | with positive lengths, radii, area, ro and torsional constants the I-shape computation succeeds with Fe > 0 |
| Compression.ChannelBucklingBounds | python/resistencia/compresion.py:376-404 | with positive data the channel computation succeeds with 0 < Fe ≤ Fey, and the flexural-torsional mode is at most Fez |
| Compression.AngleBucklingPositive | python/resistencia/compresion.py:409-418 | with non-zero KL and iv the angle computation succeeds with Fe > 0 |
| Compression.RelativeChange | python/resistencia/compresion.py:288 | the relative change abs(Qnew − Qold)/Qold is ≥ 0 and zero exactly when Q did not change; 1 when Qold ≤ 0 |
| Compression.StopIndexFirst | python/resistencia/compresion.py:274-300 | the loop's stopping iteration is the first that meets the tolerance, or the last allowed one |
| Compression.QIteration | python/resistencia/compresion.py:274-300 | the Q loop stops at `StopIndex`, reports that iteration's Q information and whether it converged; no iteration when max_iter_Q < 1 |
| Compression.QIterationStops | python/resistencia/compresion.py:274-300 | 1 ≤ iter_Q ≤ max_iter_Q, no earlier iteration converged, and the loop only reaches the cap without converging |
| Compression.ConstantQConverges | python/resistencia/compresion.py:274-300 | a Q that does not depend on Fcr converges by the second iteration |
| Compression.ProvisionalFe | python/resistencia/compresion.py:249-271 | the trial Fe is the family's step 7 Fe for I-shapes, channels and angles, and 1000 MPa otherwise |
| Compression.QBlock | python/resistencia/compresion.py:244-330 | a non-slender section has Q = Qs = Qa = 1 and iter_Q = 0; a slender one has the Q of the iteration from the trial Fe, with 1 ≤ iter_Q ≤ max_iter_Q; it fails exactly when `QRaises` names an error (the trial Fe's division by zero, max_iter_Q < 1, or a trial Fe of 0), and with that error |
| Compression.Strength | python/resistencia/compresion.py:342-447 | Fcr, Pn = Fcr·A and Pd = 0.90·Pn from the governing buckling mode with the Q found; it fails exactly when the buckling modes fail or rx, ry or the governing Fe is zero, with the error `StrengthRaises` names |
| Compression.CompressionOfRow | python/resistencia/compresion.py:91-469 | `compresion`: succeeds exactly when `CompressionRaises` is None and otherwise fails with its error, the first of: the extraction error, the ValueError listing the missing required names, the section values, the classification, the Q block and the strength; on success each step's result and the warnings in the source's order |
| Flexure.RtsSquared | python/resistencia/flexion.py:43-45 | rts ≥ 0 and rts² = √(Iy·Cw)/Sx |
| Flexure.PlasticLengthSquared | python/resistencia/flexion.py:48-50 | Lp > 0 and Lp²·Fy = 1.76²·ry²·E |
| Flexure.InelasticLengthPositive | python/resistencia/flexion.py:53-58 | Lr > 0 for positive rts and Fy |
| Flexure.LineEndpoints | python/resistencia/flexion.py:66-67 | the interpolation line goes through both end points |
| Flexure.LineBetween | python/resistencia/flexion.py:66-67 | between its ends a falling line is non-increasing and stays between its end values |
| Flexure.LtbMoment | python/resistencia/flexion.py:61-73 | yielding (Mp) for Lb ≤ Lp, the inelastic line for Lp < Lb ≤ Lr, the elastic stress times Sx beyond, each capped at Mp; ZeroDivisionError only in the elastic zone |
| Flexure.InelasticLtbEndpoints | python/resistencia/flexion.py:66 | the F2-2 line is Cb·Mp at Lp and Cb·0.7·Fy·Sx at Lr |
| Flexure.InelasticLtbBetween | python/resistencia/flexion.py:66 | within [Lp, Lr] the F2-2 moment does not increase with Lb and stays between Cb·0.7·Fy·Sx and Cb·Mp |
| Flexure.DecayNonIncreasing | python/resistencia/flexion.py:70-72 | √(1 + k·t)/t does not increase with t for k ≥ 0 |
| Flexure.ElasticLtbNonIncreasing | python/resistencia/flexion.py:70-72 | the elastic LTB stress does not increase with Lb/rts |
| Flexure.LtbElasticZoneNonIncreasing | python/resistencia/flexion.py:69-73 | beyond Lr a longer unbraced length never gives a larger moment |
| Flexure.FlangeLimitsOrdered | python/resistencia/flexion.py:78-79 | 0 < λpf < λrf |
| Flexure.Kc | python/resistencia/flexion.py:86 | kc is 4/√λ clamped to [0.35, 0.76] |
| Flexure.InelasticFlbEndpoints | python/resistencia/flexion.py:83-84 | the F3-1 line is Mp at λpf and 0.7·Fy·Sx at λrf |
| Flexure.ElasticFlbNonIncreasing | python/resistencia/flexion.py:86-87 | the elastic FLB stress does not increase with λ |
| Flexure.FlbMoment | python/resistencia/flexion.py:76-88 | compact (Mp) up to λpf, the F3-1 line up to λrf, the elastic stress times Sx capped at Mp beyond, returning λpf and λrf; ZeroDivisionError for Fy = 0 |
| Flexure.FlbMomentAtMostPlastic | python/resistencia/flexion.py:76-88 | the FLB moment never exceeds Mp when 0.7·Fy·Sx ≤ Mp |
| Flexure.ReadStrongAxis | python/resistencia/flexion.py:149-156 | reads Sx, Iy, ry, J, Cw, d, tf and bf/2tf, always available for well-formed I-shapes and channels; otherwise the KeyError of a missing one |
| Flexure.FlangeCheck | python/resistencia/flexion.py:178-184 | bf/2tf > 0 goes through `_Mn_FLB`; otherwise the flange is assumed compact at Mp with the limits still reported |
| Flexure.StrongAxisFlexure | python/resistencia/flexion.py:145-211 | the I-shape and channel branch: the KeyError of a missing property, ZeroDivisionError for Fy = 0 or Sx·ho = 0; succeeds exactly when `StrongAxisRaises` is None (no error from the LTB or FLB checks either) and fails with its error otherwise; on success Mn = min(Mn_LTB, Mn_FLB) ≤ Mp with its governing mode and Md = 0.90·Mn |
| Flexure.StrongAxisChecks | python/resistencia/flexion.py:166-187 | once the properties are read and the divisors are non-zero: the LTB error, then the FLB error, or the result described by `StrongAxisOf` with Mn ≤ Mp and Md = 0.90·Mn |
| Flexure.FlexureOfRow | python/resistencia/flexion.py:95-239 | `flexion`: the extraction error, the strong-axis branch (its result is `StrongAxisOf`, its errors those of `StrongAxisRaises`), the angle rule `AngleResult`, or a ValueError for any other family; it succeeds exactly when `FlexureRaises` is None; Md = 0.90·Mn always and Mn ≤ Mp outside angles |
| Flexure.AngleResult | python/resistencia/flexion.py:213-229 | angles: My = Fy·Sx, Mn = Mp = 1.5·My, Md = 0.90·Mn, with the F10 note |
| Flexure.GoverningLimitState | python/resistencia/flexion.py:186-187 | Mn is the lesser of the LTB and FLB moments, and the reported mode is LTB's exactly when Mn_LTB ≤ Mn_FLB |
| Interaction.Combine | python/resistencia/interaccion.py:67-95 | Pd ≤ 0 gives no ratio and a failed check; otherwise `cumple` holds exactly when the ratio is ≤ 1.0 |
| Interaction.CombinePasses | python/resistencia/interaccion.py:74-82 | with Pd > 0 the verdict is H1-1a (Nu/Pd ≥ 0.2) or H1-1b (below) of Nu/Pd and Mu/Md, Mu/Md being 0 when Md ≤ 0 |
| Interaction.PassesMonotone | python/resistencia/interaccion.py:77-82 | lowering either ratio never turns a pass into a failure, across the switch of equation too |
| Interaction.LoadMonotone | python/resistencia/interaccion.py:74-95 | for the same strengths, smaller loads never fail where larger ones pass |
| Interaction.StrengthMonotone | python/resistencia/interaccion.py:74-95 | for non-negative loads, larger strengths never fail where smaller ones pass |
| Interaction.PureCompression | python/resistencia/interaccion.py:74-95 | with Mu = 0 and Nu ≥ 0 the section passes exactly when Nu ≤ Pd |
| Interaction.PureFlexure | python/resistencia/interaccion.py:74-95 | with Nu = 0 and Md > 0 the section passes exactly when Mu ≤ Md, by H1-1b |
| Interaction.NoFlexureStrength | python/resistencia/interaccion.py:75 | with Md ≤ 0 the result does not depend on Mu |
| Interaction.InteractionOfRow | python/resistencia/interaccion.py:22-108 | `interaccion`: Lz defaults to max(Lx, Ly); it succeeds exactly when `InteractionRaises` is None, and otherwise fails with the compression error if there is one, else the flexure error; on success the compression result is that of the steps at the Lz used, the flexure result is `StrongAxisOf` or `AngleResult` by family, the figures are `Combine` of that Pd and Md, and the warnings are compression's, then flexure's, then the Pd ≤ 0 note |
| Serviceability.SchemeNamed | python/servicio/serviciabilidad.py:59-81 | a name gives the scheme with exactly that name, or none when no scheme has it |
| Serviceability.Cube | python/servicio/serviciabilidad.py:92-94 | L³ is positive for L > 0 |
| Serviceability.Fourth | python/servicio/serviciabilidad.py:96-98 | L⁴ is positive for L > 0 |
| Serviceability.LoadsRoundTrip | python/servicio/serviciabilidad.py:92-98 | the admissible point and uniform loads produce exactly the deflection δ they were computed for |
| Serviceability.LoadsInverselyProportional | python/servicio/serviciabilidad.py:92-98 | the load for δ = L/n times n is the load for δ = L |
| Serviceability.LoadsDecreaseWithDenominator | python/servicio/serviciabilidad.py:194-212 | a stricter limit L/n (larger n) never allows a larger load |
| Serviceability.Entry | python/servicio/serviciabilidad.py:196-212 | a table row has δ = L/n, and its loads (in kN and kN/m) produce exactly δ about each axis; equal inertias give equal columns |
| Serviceability.Positive | python/servicio/serviciabilidad.py:195-196 | the denominators kept are positive and come from the list |
| Serviceability.TableOfPositive | python/servicio/serviciabilidad.py:194-212 | the table has one row per positive denominator, in input order, each being `Entry` of it |
| Serviceability.BuildTable | python/servicio/serviciabilidad.py:194-212 | the loop builds exactly `TableOf` of the denominators |
| Serviceability.ReadInertias | python/servicio/serviciabilidad.py:175-183 | reads Ix and Iy (Iy = Ix for angles), or the KeyError of the first missing one |
| Serviceability.ServiceabilityOfRow | python/servicio/serviciabilidad.py:105-231 | `serviciabilidad`: ValueError for an unknown scheme (after upper-casing and stripping) or L ≤ 0; the extraction error; the KeyError of a missing Ix (or Iy); ValueError when Ix ≤ 0 or Iy ≤ 0; success in every other case, with those inertias, the table of the given or default denominators, and the warnings |
| Serviceability.SchemeNamedRoundTrip | python/servicio/serviciabilidad.py:59-81 | every scheme is found under its own name |
| Serviceability.SchemeNamesNormal | python/servicio/serviciabilidad.py:150 | the scheme names are unchanged by the upper-casing and stripping of the input |
| Serviceability.EqualInertiaColumns | python/servicio/serviciabilidad.py:175-183 | for angles (Iy = Ix) every row has equal X and Y loads |
| Text.UpperIdempotent | python/core/gestor_base_datos.py:138 | upper-casing twice is upper-casing once |
| Text.Strip | python/core/utilidades_perfil.py:322 | the stripped string is the slice of the input left after removing the leading and the trailing whitespace, all of it, and has no space at either end |
| Text.StripIdempotent | python/core/utilidades_perfil.py:322 | stripping twice is stripping once |
| Rows.AFlotante | python/core/utilidades_perfil.py:58-64 | a number is kept and anything else gives the default |
| Tags.DatabaseNamed | python/core/gestor_base_datos.py:139-140 | exactly "CIRSOC" and "AISC" name a database, each its own |
| Store.Column | python/core/gestor_base_datos.py:329 | a column has one cell per row, NaN where the row lacks it |
| Store.CountPositive | python/core/gestor_base_datos.py:329 | a value is counted at least once exactly when it occurs |
| Store.Unique | python/core/gestor_base_datos.py:337 | `unique()` has exactly the values that occur, with no repetition |
| Store.SortDesc | python/core/gestor_base_datos.py:347 | the sort by descending key is a permutation of its input |
| Store.SortDescSorted | python/core/gestor_base_datos.py:347 | the sort's output is in descending order of the key |
| Store.SortDescOfSorted | python/core/gestor_base_datos.py:347 | an already sorted list is left as it is (the sort is stable) |
| Store.ValueCountsMembers | python/core/gestor_base_datos.py:329 | `value_counts` lists exactly the non-NaN values, each with its number of occurrences |
| Store.Duplicated | python/core/gestor_base_datos.py:330 | `conteo[conteo > 1]` keeps exactly the counts above one |
| Store.DuplicatedSorted | python/core/gestor_base_datos.py:330 | keeping the counts above one preserves descending order |
| Store.RowsNamed | python/core/gestor_base_datos.py:336 | the rows whose PERFIL is the name, and only those |
| Store.Entries | python/core/gestor_base_datos.py:335-343 | one entry per repeated name, with its name and number of occurrences |
| Store.CollectEntries | python/core/gestor_base_datos.py:335-343 | the loop builds the entries and sums the occurrences |
| Store.AmbiguityListsRepeatedNames | python/core/gestor_base_datos.py:315-349 | the report lists a name exactly when it occurs more than once, each entry with its count |
| Store.AmbiguityEntriesSorted | python/core/gestor_base_datos.py:329-347 | the entries come out of `value_counts` already in descending order of occurrences |
| Store.Matching | python/core/gestor_base_datos.py:195-204 | a row is a match exactly when it is a row of the table with that name (and tipo), and there are none exactly when no row matches |
| Store.MatchingFirst | python/core/gestor_base_datos.py:201-217 | the first match is a row of the table |
| Store.Compare | python/core/gestor_base_datos.py:296-298 | NaN on either side compares false, numbers compare by value, and a number against a text is a TypeError |
| Store.Keep | python/core/gestor_base_datos.py:296-298 | the filter keeps exactly the rows that compare true, or fails exactly when some row's comparison fails |
| Store.SearchIn | python/core/gestor_base_datos.py:279-300 | 'Tipo' without a value and an unknown criterion give the empty frame; 'Tipo' with a value is the KeyError of a missing Tipo column, or keeps exactly the rows whose Tipo equals the value; every result row comes from the table, which keeps its columns |
| Store.TipoEquals | python/core/gestor_base_datos.py:290-292 | the rows whose Tipo equals the value, NaN equalling nothing |
| Store.RangeSearchExact | python/core/gestor_base_datos.py:293-299 | a numeric search keeps exactly the rows whose value lies in [min, max] |
| Store.ProfileStore.constructor | python/core/gestor_base_datos.py:27-54 | the store holds both tables and CIRSOC is active |
| Store.ProfileStore.ChangeDatabase | python/core/gestor_base_datos.py:130-142 | the upper-cased name becomes active when it is CIRSOC or AISC; otherwise a ValueError and nothing changes; the tables never change |
| Store.ProfileStore.ActiveName | python/core/gestor_base_datos.py:150-151 | the active name names the active database |
| Store.ProfileStore.ActiveTable | python/core/gestor_base_datos.py:144-148 | the AISC table when AISC is active, the CIRSOC table otherwise |
| Store.ProfileStore.FindProfile | python/core/gestor_base_datos.py:171-217 | the KeyError of a missing Tipo or PERFIL column; "not found" exactly when no row matches; the KeyError on Tipo when several rows match without a tipo and there is no Tipo column; success in every other case, with the first match of the active table |
| Store.ProfileStore.ProfileSummary | python/core/gestor_base_datos.py:219-277 | a failed lookup gives `None`; a summary carries the requested name |
| Store.ProfileStore.Search | python/core/gestor_base_datos.py:279-300 | the rows found all come from the active table |
| Store.ProfileStore.AmbiguousNames | python/core/gestor_base_datos.py:315-349 | the report is `AmbiguitySpec` of the active table, or the KeyError of a missing PERFIL column |
| Store.ChangeThenRead | python/core/gestor_base_datos.py:130-151 | after changing to a valid name, the active name is that name upper-cased |

## Left out

- Loading the CSV files, the `STEELCHECK_ROOT` folder lookup and the numeric column
  conversion are not modelled: loading is I/O. The store receives its two tables
  already loaded.
- The following are not modelled, because they are output only:
  - console printing, including the warning on several matches in
    `obtener_datos_perfil`;
  - the LaTeX documents;
  - `formatear_para_display`, `imprimir_propiedades` and the `_imprimir_*` reports.
- `obtener_familias`, `obtener_perfiles_por_familia` and `estadisticas` are not
  modelled. They are listing and statistics queries that no check relies on.
- Floating point is not modelled: the model uses real numbers. NaN becomes `Missing`
  cells, `None` ratios or errors. Infinities and rounding errors have no counterpart.
- Results are not rounded. The source rounds results to 2 decimals (Lp and Lr to 0).
  The model reports unrounded values, and `Interaction.InteractionOfRow` combines the
  unrounded Pd and Md where the source combines the rounded ones.
- `calcular_Q` (Q factors of slender sections) is not part of this model. It is the
  parameter `calcQ`.
- √, π and 0.658^x are parameters. Their properties are the `Sound` facts, so lemmas
  that need them take `Sound(m)` as a precondition.
- The physical lemmas assume positive lengths, areas, radii and stresses. Examples are
  `Compression.FeFlexTorsionalBounds` and `Flexure.LtbElasticZoneNonIncreasing`. The
  operations themselves take any input and return ZeroDivisionError where the source
  divides by zero with a Python float divisor.
- Upper-casing and stripping cover ASCII letters and ASCII whitespace only, not the
  full Unicode rules of Python's `str.upper` and `str.strip`.
- The store model has three assumptions about pandas:
  - `value_counts` is assumed to order equal counts by first appearance.
  - Text bounds in `buscar_perfiles` compare by code point.
  - A Tipo cell that holds a number is treated as an empty tipo, not as its decimal
    text.
- `compresion`, `flexion`, `interaccion` and `serviciabilidad` are modelled from the
  profile's row onwards. The lookup of that row is `Store.ProfileStore.FindProfile`.
  In the source, `flexion` calls the lookup without the `tipo` argument. The model
  leaves the choice of row to the caller.
- `Store.ProfileStore.ProfileSummary`: its contract states only the failure and
  name facts. The column choices are stated by `Store.SummaryOf`, `Store.AreaCm2` and
  `Store.Dimensions`, which have no contract of their own.
- `Store.ProfileStore.Search`: its contract states only that results come from the
  active table. What `Store.SearchIn` states is the empty frame, the KeyError of a
  missing Tipo column and the exact rows of a Tipo search. For a column criterion,
  `Store.Keep` states the filter of one bound, and `Store.RangeSearchExact` states
  the rows of a search with two numeric bounds. No contract states the rows of a
  one-sided or text-bounded search as a whole.
- `Compression.Strength`: raises ZeroDivisionError for a governing Fe of 0, as it
  would for a Python float. When Fe is a NumPy float, the source instead gets an
  infinite Q·Fy/Fe, so Fcr = 0.877·Fe = 0 and Pd = 0. Fe is a NumPy float when ro
  comes from `np.sqrt` (python/core/utilidades_perfil.py:381). The model does not
  track which values are NumPy floats.
- `Compression.QIteration`: raises ZeroDivisionError for a trial Fe of 0. The source
  divides as in `Compression.Strength`, so a NumPy Fe gives Fcr = 0 there instead.
- `Compression.Torsional`: raises ZeroDivisionError for Ag·ro² = 0. When ro is a
  NumPy float, the source divides to an infinity or NaN instead.
- `Rows.AFlotante`: gives the default for any text cell. Python's `float()` would
  parse a numeric string. This makes no difference after the numeric column
  conversion, which leaves no numeric strings in numeric columns.
