# Caelum CanSat: a Dafny model of the deterministic core

Caelum is a CanSat project. A probe falls from about 1000 m and measures CO2, particulate matter (PM1.0/PM2.5/PM10), TVOC and other gases, temperature and humidity. Its ground station, post-flight scripts and simulators are written in Python. This project models the deterministic logic under their plotting, maps and uploads, and proves what those scripts promise about it.

The logic falls into four families:

- **Vertical profile** (`ProfileAnalysis`, from `analizar_vuelo_v4.py`):
  - the `cargar_datos` clean-up: normalised column names, CO2 of 0 counted as missing, the altitude floor, sorting by time, and the GPS subset;
  - `detectar_inversiones`: 50 m altitude bins, the two-sample survival filter, the temperature gradient, and the inversion and PM2.5-layer flags;
  - the map colour `color_pm25` and the well-mixed CO2 test.
- **Simulators**:
  - `FlightSimulator` models `simulador_vuelo.py` and `InversionSimulator` models `simulador_inversion_termica.py`; `SimulatorCommon` holds the phase rule and zone table the two share;
  - the physics helpers are functions, and the `while` descent loop with its five ground records is a method;
  - each method is proved against a reference definition of the whole output (`FlightFrom`, `Run`);
  - random draws are parameters, constrained to the range of their `uniform(a, b)` call.
- **Classifiers and colours**:
  - the strict-`<` band classifiers are `Bands` instances;
  - the first-match signature decision trees are `Rules` tables: `CombustionRules` for the CO2/PM scripts, `TvocRules` for the TVOC scripts;
  - the KML colour arithmetic is in `KmlColor`;
  - one module per script: `FlightAnalysis`, `FlightAnalysisV2` and `FlightAnalysisV3` (`analizar_vuelo*.py`), `Mission2Analysis` and `Mission2Docs` (the two `analizar_mision2.py`), `KmlMission2` and `KmlDocs` (the two KML generators), `SmokeCurtain` and `SmokeCurtainOptimized` (the two curtain maps, sharing `SmokeStyle`);
  - each script's own `if/elif` chain is written out as in the source and proved equal to its table.
- **Telemetry records**:
  - `TelemetryReceiver` models `parsear_linea` of the ground station's radio receiver;
  - `Playback` models `construir_payload`, `detectar_fichero` and the mode and upload-key derivation of the Firebase playback.

The Python built-ins used are written out in `Text`:
- `strip`, `split`, `join`, `lower`, `upper` and `replace`;
- `{:02x}` formatting;
- `float()` on decimal text.

`PyMath` holds:
- `int()` as truncation toward zero;
- `min`, `max`, `abs` and `np.clip`;
- sums and means.

Floats are modelled as exact reals. `Wrappers` holds `Option`, which stands for `None` and NaN.

## Model

| member | source | states |
|---|---|---|
| Bands.BandInterval | software/post-vuelo/python/analizar_vuelo.py:68-92 | with ordered cut points, a value gets band `b` exactly when it lies in `b`'s half-open interval, each cut point belonging to the band above it (strict `<` tests) |
| Bands.BandsPartition | software/post-vuelo/python/analizar_vuelo.py:68-92 | the five band intervals partition the reals: every value lies in its own band's interval and in no other |
| Bands.BandMonotone | software/post-vuelo/python/analizar_vuelo.py:68-92 | a higher reading never gets a better band |
| Bands.CountBandSum | analizar_mision2.py:292-296 | the five per-band counts add up to the number of samples |
| Bands.IntervalCounts | analizar_mision2.py:292-296 | counting `< c1`, each `[ci, ci+1)` and `>= c4` counts exactly the samples the classifier puts in each band |
| Rules.DecideFirst | software/post-vuelo/python/analizar_vuelo.py:100-111 | in a first-match `if/elif` table, a rule that holds with no earlier rule holding decides the result (that the deciding rule is always the first that holds is `Rules.FirstHit`'s contract) |
| Rules.DecideFallback | software/post-vuelo/python/analizar_vuelo.py:110-111 | when no rule holds, the final `else` result is returned |
| Rules.DecideIgnores | software/post-vuelo/python/analizar_vuelo.py:98-111 | two readings that agree on every channel the table tests get the same decision |
| CombustionRules.FlightSignatureUnfold | software/post-vuelo/python/analizar_vuelo.py:100-111 | the rule table (combustion, diesel, traffic, dust, clean, else mixed) is the script's `if/elif` chain with its thresholds 700/100, 600/80, 500/40, 480/50, 450/12 |
| CombustionRules.V3SignatureUnfold | software/post-vuelo/python/analizar_vuelo_v3.py:56-61 | the v3 rule table is the v3 chain, with traffic the closed box `500 <= co2 <= 700 and 40 <= pm25 <= 100` |
| CombustionRules.FlightSignatureIgnoresPm10 | software/post-vuelo/python/analizar_vuelo.py:98-111 | the signature never depends on PM10, which is read but never compared |
| CombustionRules.CopiesDisagreeOnTrafficEdges | software/post-vuelo/python/analizar_vuelo_v3.py:58 | the two copies disagree on the traffic edges: (500, 50) is traffic only in v3, (750, 50) is traffic only in the first script |
| CombustionRules.CopiesAgreeInside | software/post-vuelo/python/analizar_vuelo_v3.py:56-61 | inside the open traffic box, or below either of its lower edges, both copies give the same source |
| FlightAnalysis.ClassifyCo2 | software/post-vuelo/python/analizar_vuelo.py:61-79 | `clasificar_co2` is the five-band classification with cut points 450/600/1000/1500, with the fixed label and colour of each band |
| FlightAnalysis.ClassifyPm25 | software/post-vuelo/python/analizar_vuelo.py:62-92 | `clasificar_pm25` is the five-band classification with cut points 12/35/55/150 |
| FlightAnalysis.ClassifiersMonotone | software/post-vuelo/python/analizar_vuelo.py:68-92 | more CO2 or more PM2.5 never gives a better class |
| FlightAnalysis.ClassifiersPartition | software/post-vuelo/python/analizar_vuelo.py:68-92 | each classifier returns a band's label exactly when the value lies in that band's interval |
| FlightAnalysis.DetectSignatureIsTable | software/post-vuelo/python/analizar_vuelo.py:94-111 | `detectar_firma` is the first-match table, whatever the PM10 column holds or defaults to |
| FlightAnalysis.DetectSignatureExamples | software/post-vuelo/python/analizar_vuelo.py:100-109 | (900, 120) is active combustion and (410, 5) is clean air |
| FlightAnalysis.Norm | software/post-vuelo/python/analizar_vuelo.py:293 | `(pm25 - min) / max(max - min, 1)` lies in [0, 1] and scales the value against the range, or against 1 when the range is narrower |
| FlightAnalysis.GetColor | software/post-vuelo/python/analizar_vuelo.py:292-298 | `get_color` decodes to alpha 0xbb, blue 0, and the green and red of the gradient at `norm`; a flat column gives pure green |
| FlightAnalysis.GetColorGradient | software/post-vuelo/python/analizar_vuelo.py:292-298 | between the column's extremes, red never falls and green never rises as PM2.5 grows |
| FlightAnalysis.WithFix | software/post-vuelo/python/analizar_vuelo.py:303 | the GPS subset keeps only rows with `lat != 0` and `lon != 0`, all taken from the input |
| FlightAnalysis.WithFixCounts | software/post-vuelo/python/analizar_vuelo.py:303 | the GPS subset holds each row with a fix exactly as often as the input does, and no other row |
| FlightAnalysis.Cylinders | software/post-vuelo/python/analizar_vuelo.py:303-318 | one cylinder per row with a fix, at that row's position, filled with `get_color` of its PM2.5 against the minimum and maximum PM2.5 of the GPS rows, labelled with its signature, with an outline that is the fill made opaque (the intended outline, see Findings) |
| FlightAnalysis.OutlineCounterexample | software/post-vuelo/python/analizar_vuelo.py:316 | at PM2.5 632 in a 0–1000 frame the fill is `bb00bbff`; `replace('bb', 'ff')` gives `ff00ffff`, the opaque fill is `ff00bbff` |
| FlightAnalysisV2.ClassifySituationIsTable | software/post-vuelo/python/analizar_vuelo_v2.py:55-94 | `detectar_firma_y_consejo` is the first-match table Diesel (co2 > 850 and pm25 > 50), Calima (pm10 > 100), Pollen, Dust, Traffic (co2 > 650 or pm25 > 30), else clean air |
| FlightAnalysisV2.CalimaShadowsLaterRules | software/post-vuelo/python/analizar_vuelo_v2.py:67-76 | a row with PM10 above 100 that is not diesel is always calima: the pollen and dust rules are never reached for it |
| FlightAnalysisV2.MissingColumnsAreClean | software/post-vuelo/python/analizar_vuelo_v2.py:56-94 | with the defaults co2 = 400, pm2_5 = 0, pm10 = 0, a row with none of the columns is clean air |
| FlightAnalysisV2.AdviceColor | software/post-vuelo/python/analizar_vuelo_v2.py:61-94 | every situation's colour is a seven-character `#RRGGBB` |
| FlightAnalysisV2.KmlFromHtml | software/post-vuelo/python/analizar_vuelo_v2.py:179 | the KML colour built from `#RRGGBB` has 8 characters |
| FlightAnalysisV2.KmlFromHtmlRoundTrip | software/post-vuelo/python/analizar_vuelo_v2.py:179 | the reordering loses nothing: the HTML colour can be rebuilt from the KML colour |
| FlightAnalysisV2.KmlFromHtmlChannels | software/post-vuelo/python/analizar_vuelo_v2.py:179 | the KML colour is opaque with the red, green and blue bytes of the HTML colour in reverse order |
| FlightAnalysisV2.AdviceColorsConvert | software/post-vuelo/python/analizar_vuelo_v2.py:158-179 | every one of the six advice colours becomes a valid opaque KML colour with its own red, green and blue |
| FlightAnalysisV2.WithLat | software/post-vuelo/python/analizar_vuelo_v2.py:151-157 | the map rows are exactly those with `lat != 0`, all from the input |
| FlightAnalysisV2.WithLatCounts | software/post-vuelo/python/analizar_vuelo_v2.py:151-157 | the map rows hold each row with `lat != 0` exactly as often as the input does, and no other row |
| FlightAnalysisV2.HeatIntensity | software/post-vuelo/python/analizar_vuelo_v2.py:151 | no value (`KeyError`) exactly when the PM2.5 column is missing; otherwise `min(pm2_5/100, 1)`: at most 1, equal to 1 exactly from 100 µg/m³ up, `pm2_5/100` below that, not negative for a non-negative reading |
| FlightAnalysisV2.MakePlacemark | software/post-vuelo/python/analizar_vuelo_v2.py:157-181 | a marker at the row's position and altitude with the label, advice and colour of `detectar_firma_y_consejo`; its KML colour is that colour opaque with the same red, green and blue, and converts back to it |
| FlightAnalysisV2.MapLayers | software/post-vuelo/python/analizar_vuelo_v2.py:151-181 | nothing when a row with `lat != 0` lacks PM2.5 (the heat list raises first); otherwise rows with `lat == 0` give no heat point and no marker, and each other row, in order, gives the heat point `(lat, lon, intensity)` and its marker |
| FlightAnalysisV3.DetectSourceIsTable | software/post-vuelo/python/analizar_vuelo_v3.py:53-61 | `detectar_firma` is the v3 first-match table, with missing CO2 read as 400 and missing PM2.5 as 0 |
| FlightAnalysisV3.TrafficIff | software/post-vuelo/python/analizar_vuelo_v3.py:56-58 | traffic exactly when `500 <= co2 <= 700` and `40 <= pm25 <= 100`, both edges included, and the diesel rule has not fired |
| FlightAnalysisV3.MissingColumnsAreClean | software/post-vuelo/python/analizar_vuelo_v3.py:54-60 | a row missing both CO2 and PM2.5 is clean air |
| FlightAnalysisV3.Diff | software/post-vuelo/python/analizar_vuelo_v3.py:87 | `np.diff` has one element fewer than its input, each the difference of two neighbours |
| FlightAnalysisV3.DescentSpeed | software/post-vuelo/python/analizar_vuelo_v3.py:87 | the speed series has the length of the altitude series, starts at 0, is never negative, and is the absolute step between neighbours; an empty series raises |
| FlightAnalysisV3.DescentSpeedSum | software/post-vuelo/python/analizar_vuelo_v3.py:87 | on a descent, the speeds add up to the height lost |
| KmlColor.DecodeEncode | python/generar_kml_mision2.py:33 | the eight hex digits lose nothing: reading them back gives the same four channels |
| KmlColor.GradientRed | python/generar_kml_mision2.py:24-31 | red is a byte, and it is 255 exactly from the midpoint of the gradient on |
| KmlColor.GradientGreen | python/generar_kml_mision2.py:24-31 | green is a byte, 255 below the midpoint and `int(255*(2 - 2·norm))` above it |
| KmlColor.GradientMonotone | python/generar_kml_mision2.py:24-31 | along the gradient red never falls and green never rises |
| KmlColor.GradientEnds | python/generar_kml_mision2.py:24-31 | the gradient runs from pure green at 0 to pure red at 1 |
| KmlColor.Opaque | python/generar_kml_mision2.py:128 | the intended outline: the same blue, green and red with alpha 255 |
| KmlMission2.Norm | python/generar_kml_mision2.py:19-22 | the normalised TVOC lies in [0, 1], is 0.5 for a flat column, and otherwise places the value linearly between the extremes |
| KmlMission2.ColorFromTvoc | python/generar_kml_mision2.py:17-33 | `get_color_from_tvoc` decodes to alpha 0xbb, no blue, and the gradient's green and red at the normalised TVOC |
| KmlMission2.ColorFromTvocGradient | python/generar_kml_mision2.py:17-33 | between the column's extremes, more TVOC never gives less red or more green, and red or green is always saturated |
| KmlMission2.ClassifyQuality | python/generar_kml_mision2.py:46-57 | `clasificar_calidad` is the five-band TVOC classification with cut points 220/660/2200/5500 |
| KmlMission2.DetectSignatureIsTable | python/generar_kml_mision2.py:59-72 | `detectar_firma` is the shared first-match TVOC table (diesel, biomass, traffic, severe, clean, else industrial) |
| KmlMission2.CylinderHeight | python/generar_kml_mision2.py:113 | `altura_cilindro`, the height written in the placemark's description (the polygon gets no altitude), is never lower than a non-negative TVOC value (its exact value, `1.5 × tvoc`, is stated by `KmlMission2.MakeCylinder`) |
| KmlMission2.OutlineColor | python/generar_kml_mision2.py:128 | the outline is the fill colour made opaque, every other channel kept |
| KmlMission2.MakeCylinder | python/generar_kml_mision2.py:107-133 | a cylinder centred on the sample's position whose description states `altura_cilindro = 1.5 × tvoc` (the polygon gets no altitude), filled with the gradient colour of its TVOC at alpha `bb`, outlined in that colour opaque (the intended outline, see Findings), with the quality band and signature of its TVOC and gases |
| KmlMission2.Cylinders | python/generar_kml_mision2.py:83-133 | no KML when no row has a fix; otherwise one cylinder per row with a fix, in order, each the cylinder of that row against the minimum and maximum TVOC of the rows with a fix (with the intended outline, see Findings) |
| KmlMission2.FillCounterexample | python/generar_kml_mision2.py:17-33 | TVOC 632 in a 0–1000 ppb column is filled `bb00bbff`, whose green byte is `bb` |
| KmlMission2.OutlineCounterexample | python/generar_kml_mision2.py:128 | `replace('bb','ff')` turns `bb00bbff` into `ff00ffff`, while the opaque fill is `ff00bbff` |
| KmlMission2.OutlineCounterexampleChannels | python/generar_kml_mision2.py:128 | read as channels, the outline as written has green 255 where the fill has 187 |
| KmlDocs.ColorKml | docs/analisis_post_vuelo/scripts/generar_kml.py:24-39 | the documentation copy's `get_color_kml` gives the same colour as the mission-2 generator for every input |
| KmlDocs.ClassifyQuality | docs/analisis_post_vuelo/scripts/generar_kml.py:51-61 | the same TVOC bands and labels as the mission-2 generator |
| KmlDocs.DetectSignatureIsTable | docs/analisis_post_vuelo/scripts/generar_kml.py:63-75 | the same first-match TVOC table, with this copy's one-space severe label |
| KmlDocs.MakeCylinder | docs/analisis_post_vuelo/scripts/generar_kml.py:108-124 | the mission-2 generator's cylinder for the same sample and range (position, fill, quality and the intended outline, see Findings), with this copy's signature label; the height field is this copy's `altura`, computed at line 111 and never used |
| KmlDocs.Cylinders | docs/analisis_post_vuelo/scripts/generar_kml.py:89-124 | no KML without a fix; otherwise, element by element, the mission-2 generator's cylinders with this copy's signature label |
| TvocRules.SignatureUnfold | analizar_mision2.py:61-72 | the shared TVOC signature table is the chain diesel (tvoc > 1000 and h2 > 13000), biomass (tvoc > 500 and ethanol > 18000), traffic (300 < tvoc < 800 and eco2 > 1000), severe (tvoc > 5000), clean (tvoc < 100), else industrial |
| TvocRules.SevereIff | analizar_mision2.py:61-68 | severe pollution is reported exactly above 5000 ppb when neither the diesel nor the biomass rule fires |
| TvocRules.DieselBeforeSevere | analizar_mision2.py:61-68 | rule order decides: 6000 ppb with high H2 is diesel, not severe |
| TvocRules.TrafficIff | analizar_mision2.py:63-66 | traffic exactly when 300 < tvoc < 800, eco2 > 1000 and the biomass rule does not fire |
| TvocRules.CleanIff | analizar_mision2.py:69-70 | clean air exactly below 100 ppb |
| TvocRules.WithFix | analizar_mision2.py:95 | the rows with a fix are those with `lat != 0` and `lon != 0`, all from the input |
| TvocRules.WithFixCounts | analizar_mision2.py:95 | the rows with a fix hold each such row exactly as often as the input does, and no other row |
| TvocRules.Intensity | analizar_mision2.py:97 | `min(tvoc / scale, 1.0)` is at most 1, not negative for a non-negative reading, and saturates exactly from `scale` on |
| TvocRules.HeatPoints | analizar_mision2.py:94-98 | one heat point per row with a fix, in order, with its position and intensity |
| Mission2Analysis.ClassifyAirQuality | analizar_mision2.py:28-48 | `clasificar_calidad_aire` is the five-band TVOC classification with cut points 220/660/2200/5500 and the fixed label and colour of each band |
| Mission2Analysis.ClassifyAirQualityMonotone | analizar_mision2.py:37-48 | more TVOC never gives a better class |
| Mission2Analysis.DetectCombustionSignatureIsTable | analizar_mision2.py:50-72 | `detectar_firma_combustion` is the shared first-match table, rule for rule |
| Mission2Analysis.HeatData | analizar_mision2.py:93-98 | the loop builds the heat points of the rows with a fix, intensity `min(tvoc/10000, 1)`, within [0, 1] for non-negative TVOC |
| Mission2Analysis.GpsValidCountCoversMap | analizar_mision2.py:278 | the report's count, which checks only the latitude, is never below the number of points the map draws (the map keeps rows with both coordinates non-zero, line 95) |
| Mission2Analysis.MarkerColor | analizar_mision2.py:148-150 | red exactly above 1000 ppb, green exactly at or below 500 ppb, orange between |
| Mission2Analysis.MarkerColorMonotone | analizar_mision2.py:148-150 | more TVOC never gives a milder marker |
| Mission2Analysis.CountBandsPartition | analizar_mision2.py:292-296 | each of the report's interval counts equals the number of samples the classifier puts in that band, and the five add up to the sample count |
| Mission2Docs.ClassifyAirQuality | docs/analisis_post_vuelo/scripts/analizar_mision2.py:29-48 | the documentation copy classifies TVOC with the same bands, labels and colours as the root script |
| Mission2Docs.SameRulesAsRoot | docs/analisis_post_vuelo/scripts/analizar_mision2.py:50-67 | the copy's chain is the shared signature table; it names the same source as the root script for every reading, and prints the same text except for the severe label |
| Mission2Docs.HeatData | docs/analisis_post_vuelo/scripts/analizar_mision2.py:72-90 | no map exactly when no row has a fix; otherwise one heat point per row with a fix, intensity `min(tvoc/5000, 1)` |
| Mission2Docs.NoFixIff | docs/analisis_post_vuelo/scripts/analizar_mision2.py:72-76 | the filtered frame is empty exactly when no row has both coordinates non-zero |
| Mission2Docs.MarkerColor | docs/analisis_post_vuelo/scripts/analizar_mision2.py:125-126 | the same marker colour as the root script for every TVOC |
| SmokeStyle.PaletteOpacityIncreasing | docs/scripts/mapa_cortina.py:27-38 | worse air is drawn with strictly denser smoke, every opacity inside (0, 1) |
| SmokeStyle.LayersNested | docs/scripts/mapa_cortina.py:128-134 | for a positive base radius `25 + tvoc/80` and a positive opacity, the innermost circle has the base radius, the circles are strictly nested, and each outer one is fainter but still visible |
| SmokeCurtain.SmokeColor | docs/scripts/mapa_cortina.py:27-38 | `get_smoke_color` is the band palette over the TVOC cut points 220/660/2200/5500 |
| SmokeCurtain.SmokeOpacityMonotone | docs/scripts/mapa_cortina.py:27-38 | more TVOC is never drawn fainter |
| SmokeCurtain.DetectSignatureIsTable | docs/scripts/mapa_cortina.py:40-53 | `detectar_firma` is the shared first-match table with this script's short labels |
| SmokeCurtain.MakeCurtain | docs/scripts/mapa_cortina.py:125-145 | a curtain at the sample's position in its band's palette colour, with four circles of radius `(25 + tvoc/80)(1 + 0.25 i)` and opacity `opacity·(0.6 − 0.12 i)`, labelled with this script's label of the shared signature |
| SmokeCurtain.Curtains | docs/scripts/mapa_cortina.py:110-145 | one curtain per row with both coordinates non-zero, in order, each that row's curtain |
| SmokeCurtain.CurtainsWellFormed | docs/scripts/mapa_cortina.py:110-134 | every curtain sits on a fix, and for non-negative TVOC its four circles are nested and fade outwards while staying visible |
| SmokeCurtain.DistributionIntervals | docs/scripts/mapa_cortina.py:231-233 | inside [0, 99999) a value lies in summary interval `i` exactly when the map colours it with band `i` |
| SmokeCurtain.DistributionMatchesColours | docs/scripts/mapa_cortina.py:230-234 | for readings in [0, 99999) each summary count is the number of samples drawn in that band's colour |
| SmokeCurtainOptimized.SmokeColor | mapa_cortina_optimizado.py:71-82 | `get_smoke_color` is the band palette over the cut points 300/660/1000/2000 |
| SmokeCurtainOptimized.SmokeOpacityMonotone | mapa_cortina_optimizado.py:71-82 | more TVOC is never drawn fainter |
| SmokeCurtainOptimized.CurtainLayersNested | mapa_cortina_optimizado.py:94-99 | the four circles of a sample are nested and fade outwards while staying visible |
| SmokeCurtainOptimized.LevelAsWrittenDisagrees | mapa_cortina_optimizado.py:225-227 | inside (0, 10000), `pd.cut`'s right-closed level agrees with the map colour exactly when the value is not one of the cut points 300, 660, 1000 or 2000 |
| SmokeCurtainOptimized.BoundaryCounterexample | mapa_cortina_optimizado.py:225-227 | 300 ppb is summarised as "Excelente" but drawn in the "Buena" colour that `get_smoke_color` (lines 71-82) gives it |
| SmokeCurtainOptimized.Level | mapa_cortina_optimizado.py:225-227 | the corrected level, with left-closed intervals, is defined exactly on [0, 10000) |
| SmokeCurtainOptimized.LevelMatchesColour | mapa_cortina_optimizado.py:225-227 | with left-closed intervals every summarised value gets the level of the colour `get_smoke_color` (lines 71-82) gives it |
| SmokeCurtainOptimized.CountLevelMatchesColours | mapa_cortina_optimizado.py:225-233 | for readings in [0, 10000) the corrected summary counts equal the numbers of samples drawn in each band's colour |
| SimulatorCommon.PhaseOf | software/post-vuelo/python/simulador_vuelo.py:215-223 | free fall exactly above 900 m, chute opening exactly in (880, 900], descent exactly at or below 880 m |
| SimulatorCommon.Speed | software/post-vuelo/python/simulador_vuelo.py:217-223 | every flying phase falls at between 9 and 25 m/s |
| SimulatorCommon.PhaseMonotone | software/post-vuelo/python/simulador_vuelo.py:215-223 | losing altitude never moves the phase back |
| SimulatorCommon.ZoneOfSound | software/post-vuelo/python/simulador_vuelo.py:108-121 | the zone found comes from the table and holds the altitude in `[alt_min, alt_max)`; none is found exactly when no zone holds it |
| SimulatorCommon.ZoneOfFirst | software/post-vuelo/python/simulador_vuelo.py:108-109 | the first zone of the table holding the altitude wins |
| SimulatorCommon.FindZone | software/post-vuelo/python/simulador_vuelo.py:108-109 | the `for` loop that returns on the first matching zone finds the reference zone |
| FlightSimulator.TemperatureDecreasing | software/post-vuelo/python/simulador_vuelo.py:67-99 | higher is strictly colder, by exactly 6.5 °C per 1000 m |
| FlightSimulator.Humidity | software/post-vuelo/python/simulador_vuelo.py:101-104 | humidity is always in [30, 85], and is `55 + 2·alt/100 + noise` whenever that is in range |
| FlightSimulator.ZonesCover | software/post-vuelo/python/simulador_vuelo.py:80-121 | the zones tile [0, 1000): an altitude gets the default readings exactly when it is negative or at least 1000 m |
| FlightSimulator.ZonesCleanerWithHeight | software/post-vuelo/python/simulador_vuelo.py:80-87 | each zone lower down has more CO2 and PM2.5, and neighbouring zones share their edge |
| FlightSimulator.ZoneReadings | software/post-vuelo/python/simulador_vuelo.py:120-121 | outside every zone the readings are `(420, 5, 8, 12)` |
| FlightSimulator.ZoneReadingsBounds | software/post-vuelo/python/simulador_vuelo.py:111-118 | with draws in their ranges, PM1.0 ≤ PM2.5 ≤ PM10, none negative, and CO2 within the drawn band around the base |
| FlightSimulator.ParticlesOrdered | software/post-vuelo/python/simulador_vuelo.py:106-121 | every reading, from a zone or the default, has 0 ≤ PM1.0 ≤ PM2.5 ≤ PM10 |
| FlightSimulator.ObtainPollution | software/post-vuelo/python/simulador_vuelo.py:106-121 | `obtener_contaminacion` returns the readings of the first zone holding the altitude, or the default |
| FlightSimulator.Step | software/post-vuelo/python/simulador_vuelo.py:225-228 | the new altitude is never negative, and with the noise in [-0.5, 0.5] it is strictly lower: 0 or at least 8.5 m lower |
| FlightSimulator.FlightRecord | software/post-vuelo/python/simulador_vuelo.py:213-277 | a flight record carries the phase chosen before the step, the altitude after it, `alt_mar = 650 + alt`, and a temperature within 0.3 °C of the profile |
| FlightSimulator.FlightFromCons | software/post-vuelo/python/simulador_vuelo.py:213-284 | one pass of the loop writes this second's record and leaves the rest of the descent to the next, strictly lower, whole metre |
| FlightSimulator.FlightLanded | software/post-vuelo/python/simulador_vuelo.py:213 | at 0 m the descent has no more records |
| FlightSimulator.GroundTail | software/post-vuelo/python/simulador_vuelo.py:291-320 | the ground loop writes exactly `n` ground records at consecutive seconds |
| FlightSimulator.FlightTimes | software/post-vuelo/python/simulador_vuelo.py:255-284 | a descent has records exactly when it starts above the ground; their timestamps count up by one, and none is a ground record |
| FlightSimulator.FlightAltitudes | software/post-vuelo/python/simulador_vuelo.py:226-228 | each flight record is lower than the one before, and only the last is at 0 m |
| FlightSimulator.FlightPhases | software/post-vuelo/python/simulador_vuelo.py:215-223 | the phases along a descent never go back |
| FlightSimulator.AppendGround | software/post-vuelo/python/simulador_vuelo.py:291-320 | the ground loop appends the five ground records, bumping the time before each |
| FlightSimulator.FlySecond | software/post-vuelo/python/simulador_vuelo.py:213-284 | one pass moves by the phase's speed, writes the record at the new altitude and advances the time, and the descent still to fly is what remains of the reference descent |
| FlightSimulator.Simulate | software/post-vuelo/python/simulador_vuelo.py:180-321 | `simular_vuelo` writes the reference descent followed by the five ground records |
| FlightSimulator.RunTimes | software/post-vuelo/python/simulador_vuelo.py:284-298 | the flight timestamps are 0, 1, 2, …; the first ground record comes 2 s after the last flight record and each later one 1 s after the previous one |
| FlightSimulator.RunAltitudes | software/post-vuelo/python/simulador_vuelo.py:213-321 | the flight altitudes strictly fall to exactly one 0 m record, followed by five ground records at 0 m and `alt_mar = 650` |
| FlightSimulator.RunPhases | software/post-vuelo/python/simulador_vuelo.py:213-321 | the phases never go back over the whole output, ending with the ground records |
| InversionSimulator.TemperatureAsWrittenShape | software/simulacion/simulador_inversion_termica.py:69-120 | the profile as written is colder with height below 200 m and from 350 m up, and warmer with height inside [200, 350) |
| InversionSimulator.TemperatureJumpAtTop | software/simulacion/simulador_inversion_termica.py:108-116 | as written, the segments meet at 200 m but not at 350 m, where the profile drops by 1.425 °C |
| InversionSimulator.Temperature | software/simulacion/simulador_inversion_termica.py:102-120 | the corrected profile agrees with the code everywhere below 350 m |
| InversionSimulator.TemperatureContinuous | software/simulacion/simulador_inversion_termica.py:108-120 | the corrected profile is continuous: two altitudes `d` metres apart differ by at most 0.0065·`d` °C |
| InversionSimulator.TemperatureShape | software/simulacion/simulador_inversion_termica.py:69-120 | the corrected profile is colder with height outside the inversion and warmer with height inside it |
| InversionSimulator.Humidity | software/simulacion/simulador_inversion_termica.py:122-125 | humidity is always in [25, 90], and is `55 + 8·alt/1000 + noise` whenever that is in range |
| InversionSimulator.ProfileCovers | software/simulacion/simulador_inversion_termica.py:85-139 | the zones tile [0, 1000): an altitude gets the default readings exactly when it is negative or at least 1000 m |
| InversionSimulator.ZoneReadings | software/simulacion/simulador_inversion_termica.py:129-139 | CO2 always lies in [400, 600] and no particle reading is negative; the default is `(420, 4.0, 6.0, 10.0)`; with valid draws PM1.0 ≤ 0.70·PM2.5, PM10 ≤ 1.60·PM2.5, and PM2.5 lies within the drawn band around the zone's base |
| InversionSimulator.ShareBound | software/simulacion/simulador_inversion_termica.py:135-136 | `max(0, pm25·r)` stays at or below `hi·pm25` for any ratio `r ≤ hi` |
| InversionSimulator.DefaultBreaksRatio | software/simulacion/simulador_inversion_termica.py:139 | the default reading has PM10 above 1.6 times PM2.5, a ratio no zone reading can have |
| InversionSimulator.InversionTrapsParticles | software/simulacion/simulador_inversion_termica.py:85-139 | any reading inside the inversion has more PM2.5 than any reading outside it |
| InversionSimulator.ObtainPollution | software/simulacion/simulador_inversion_termica.py:127-139 | `obtener_contaminacion` returns the readings of the first zone holding the altitude, or the default |
| InversionSimulator.TemperatureSensors | software/simulacion/simulador_inversion_termica.py:141-154 | before rounding, HS300x reads within ±0.3 °C of the true temperature, SCD40 within `+0.1 ± 0.4` and LPS22HB within `+0.4 ± 0.3` |
| InversionSimulator.SensorSpread | software/simulacion/simulador_inversion_termica.py:151-153 | the LPS22HB reads between 0.2 °C below and 1.0 °C above the HS300x, and the SCD40 within 0.8 °C of it |
| InversionSimulator.HumiditySensors | software/simulacion/simulador_inversion_termica.py:156-163 | both humidity sensors read within [10, 95], and read the noisy value whenever it is in range |
| InversionSimulator.Step | software/simulacion/simulador_inversion_termica.py:237-238 | the new altitude is never negative, and with the noise in [-0.4, 0.4] it is strictly lower: 0 or at least 8.6 m lower |
| InversionSimulator.FlightRecord | software/simulacion/simulador_inversion_termica.py:225-288 | a flight record carries the phase chosen before the step, the altitude after it, `alt_mar = 650 + alt`, and the temperature of the profile as the script writes it (below 350 m that of the continuous profile, from 350 m up 1.425 °C lower) |
| InversionSimulator.GroundTail | software/simulacion/simulador_inversion_termica.py:297-332 | the ground loop writes exactly `n` ground records at consecutive seconds |
| InversionSimulator.FlightTimes | software/simulacion/simulador_inversion_termica.py:263-293 | a descent has records exactly when it starts above the ground; their timestamps count up by one, and none is a ground record |
| InversionSimulator.FlightAltitudes | software/simulacion/simulador_inversion_termica.py:225-238 | each flight record is lower than the one before, and only the last is at 0 m |
| InversionSimulator.FlightPhases | software/simulacion/simulador_inversion_termica.py:227-235 | the phases along a descent never go back |
| InversionSimulator.FlightFromCons | software/simulacion/simulador_inversion_termica.py:225-294 | one pass of the loop writes this second's record and leaves the rest of the descent to the next, strictly lower, whole metre |
| InversionSimulator.FlySecond | software/simulacion/simulador_inversion_termica.py:225-294 | one pass moves by the phase's speed, writes the record at the new altitude and advances the time, and the descent still to fly is what remains of the reference descent |
| InversionSimulator.Descend | software/simulacion/simulador_inversion_termica.py:225-294 | the `while altitud > 0` loop writes the reference descent |
| InversionSimulator.AppendGround | software/simulacion/simulador_inversion_termica.py:297-332 | the ground loop appends five ground records, timestamped from the first second after the flight |
| InversionSimulator.Simulate | software/simulacion/simulador_inversion_termica.py:201-332 | `simular_vuelo` writes the reference descent followed by the five ground records |
| InversionSimulator.RunGround | software/simulacion/simulador_inversion_termica.py:297-330 | the output ends with exactly five `tierra` records at 0 m and `alt_mar = 650`, after at least one flight record |
| InversionSimulator.RunTimes | software/simulacion/simulador_inversion_termica.py:263-331 | timestamps rise by exactly one from 0 across the whole output, ground records included |
| InversionSimulator.RunAltitudes | software/simulacion/simulador_inversion_termica.py:225-238 | the flight altitudes strictly fall to exactly one 0 m record |
| InversionSimulator.RunPhases | software/simulacion/simulador_inversion_termica.py:225-332 | the phases never go back over the whole output, ending with the ground records |
| ProfileAnalysis.NormaliseColumns | software/post-vuelo/python/analizar_vuelo_v4.py:72 | one normalised name per column, none with surrounding whitespace |
| ProfileAnalysis.NormalisedName | software/post-vuelo/python/analizar_vuelo_v4.py:72 | a normalised name has no leading or trailing whitespace |
| ProfileAnalysis.NormalisedNameIdempotent | software/post-vuelo/python/analizar_vuelo_v4.py:72 | stripping and lower-casing a name twice gives the same as once |
| ProfileAnalysis.NormaliseColumnsIdempotent | software/post-vuelo/python/analizar_vuelo_v4.py:72 | normalising the column names a second time changes nothing |
| ProfileAnalysis.MarkMissingCo2 | software/post-vuelo/python/analizar_vuelo_v4.py:84 | one row per row; a zero CO2 reading becomes missing and every other value is kept |
| ProfileAnalysis.AboveFloor | software/post-vuelo/python/analizar_vuelo_v4.py:87 | the kept rows are exactly the rows with `alt > -50` |
| ProfileAnalysis.AboveFloorCounts | software/post-vuelo/python/analizar_vuelo_v4.py:87 | the kept rows hold each row with `alt > -50` exactly as often as the input does, and no other row |
| ProfileAnalysis.SortByTime | software/post-vuelo/python/analizar_vuelo_v4.py:90 | the sort is a permutation of the rows |
| ProfileAnalysis.InsertSorted | software/post-vuelo/python/analizar_vuelo_v4.py:90 | inserting into a time-ordered frame keeps it ordered |
| ProfileAnalysis.SortByTimeSorted | software/post-vuelo/python/analizar_vuelo_v4.py:90 | the sorted frame is in timestamp order and holds every row once per occurrence |
| ProfileAnalysis.PrepareSpec | software/post-vuelo/python/analizar_vuelo_v4.py:84-90 | the cleaned frame is in timestamp order and is a permutation of the rows above the floor, none with a zero CO2 reading |
| ProfileAnalysis.FixMask | software/post-vuelo/python/analizar_vuelo_v4.py:78 | one flag per row, true exactly when both coordinates are non-zero |
| ProfileAnalysis.GpsByLabel | software/post-vuelo/python/analizar_vuelo_v4.py:78-92 | indexing the cleaned frame with the raw frame's mask keeps at most the cleaned frame's rows |
| ProfileAnalysis.WithFix | software/post-vuelo/python/analizar_vuelo_v4.py:78-92 | the intended GPS subset is exactly the rows with a fix |
| ProfileAnalysis.GpsMaskCounterexample | software/post-vuelo/python/analizar_vuelo_v4.py:78-92 | with the mask taken before the sort, the GPS subset holds only the row without a fix, while the intended subset is only the row with one |
| ProfileAnalysis.LoadData | software/post-vuelo/python/analizar_vuelo_v4.py:66-92 | the corrected `cargar_datos` (see Findings) returns the cleaned frame and, taken from it, exactly its rows with a fix |
| ProfileAnalysis.BinBounds | software/post-vuelo/python/analizar_vuelo_v4.py:104 | every sample lies in `[alt_bin, alt_bin + 50)`, and bins are ordered by their index |
| ProfileAnalysis.MembersSpec | software/post-vuelo/python/analizar_vuelo_v4.py:104-106 | a group holds exactly the samples with that bin key |
| ProfileAnalysis.Keys | software/post-vuelo/python/analizar_vuelo_v4.py:106-115 | the surviving bin keys are strictly increasing, each holding at least two samples |
| ProfileAnalysis.KeysComplete | software/post-vuelo/python/analizar_vuelo_v4.py:115 | every bin with two or more samples survives the filter |
| ProfileAnalysis.Co2Values | software/post-vuelo/python/analizar_vuelo_v4.py:111 | the present CO2 readings of a group, NaN skipped, exactly those present |
| ProfileAnalysis.Aggregate | software/post-vuelo/python/analizar_vuelo_v4.py:106-113 | an aggregated row has its bin's floor and sample count, the means of the group's temperature, PM2.5 and PM10 (each between the group's minimum and maximum), a `pm25_max` that is one of the samples' PM2.5 and at least every other, and a CO2 mean that is NaN exactly when no sample has CO2 |
| ProfileAnalysis.Profile | software/post-vuelo/python/analizar_vuelo_v4.py:104-115 | one row per surviving bin, in order, at its floor, counting at least two samples: the aggregate of exactly the samples of that bin |
| ProfileAnalysis.ProfileIncreasing | software/post-vuelo/python/analizar_vuelo_v4.py:115 | the profile rows go up strictly, at least one bin width apart |
| ProfileAnalysis.ProfileComplete | software/post-vuelo/python/analizar_vuelo_v4.py:104-115 | a sample whose bin holds two or more samples is represented by a profile row at its bin floor |
| ProfileAnalysis.DetectInversions | software/post-vuelo/python/analizar_vuelo_v4.py:97-124 | one flagged row per profile row, carrying that row |
| ProfileAnalysis.DetectInversionsFlags | software/post-vuelo/python/analizar_vuelo_v4.py:104-122 | over the samples: row `i` is an inversion exactly when it is not the first and its bin's mean temperature is more than 0.5 °C above the previous surviving bin's; it is an accumulation layer exactly when its bin's mean PM2.5 is above 15 |
| ProfileAnalysis.FlagsIff | software/post-vuelo/python/analizar_vuelo_v4.py:118-122 | the first row has no gradient; a row is an inversion exactly when its mean temperature is more than 0.5 °C above the previous surviving row's; it is an accumulation layer exactly when its mean PM2.5 is above 15 |
| ProfileAnalysis.CoolingHasNoInversion | software/post-vuelo/python/analizar_vuelo_v4.py:118-121 | a profile that cools at every step up has no inversion |
| ProfileAnalysis.InversionAcrossDroppedBin | software/post-vuelo/python/analizar_vuelo_v4.py:115-121 | two surviving bins 100 m apart whose means differ by 0.8 °C are flagged, because the gradient divides by one bin width |
| ProfileAnalysis.Pm25MapColor | software/post-vuelo/python/analizar_vuelo_v4.py:456-460 | green exactly below 12, amber exactly in [12, 35), red exactly from 55 on, so orange exactly in [35, 55) |
| ProfileAnalysis.ColorPm25 | software/post-vuelo/python/analizar_vuelo_v4.py:456-463 | `color_pm25` gives the hex colour of that band, reading a missing value as 0 |
| ProfileAnalysis.Pm25MapColorMonotone | software/post-vuelo/python/analizar_vuelo_v4.py:456-460 | more PM2.5 never gets a milder colour |
| ProfileAnalysis.WellMixedIff | software/post-vuelo/python/analizar_vuelo_v4.py:540-541 | well mixed exactly when some CO2 reading is present and every two readings differ by less than 20 ppm |
| Playback.KindOf | software/vuelo/panel_web/caelum_playback_v2.py:33-76 | a column is dropped from the payload exactly when its stripped name is in neither `CAMPOS_NUMERICOS` nor `CAMPOS_TEXTO` |
| Playback.TextValue | software/vuelo/panel_web/caelum_playback_v2.py:76 | `str(valor).strip()` has no surrounding whitespace |
| Playback.Converted | software/vuelo/panel_web/caelum_playback_v2.py:70-76 | a numeric column always gives a number and a text column a stripped string; a missing numeric cell (`None`, the `TypeError` case) gives 0.0 |
| Playback.Names | software/vuelo/panel_web/caelum_playback_v2.py:68-69 | each key is the stripped column name |
| Playback.Values | software/vuelo/panel_web/caelum_playback_v2.py:70-76 | each value is its cell converted by its column's kind |
| Playback.BuildPayload | software/vuelo/panel_web/caelum_playback_v2.py:62-77 | no payload exactly when the row is longer than the header (`csv.DictReader` keys the extra cells by `None`, and `campo.strip()` raises `AttributeError` on it); otherwise the reference payload of the row |
| Playback.FillNamed | software/vuelo/panel_web/caelum_playback_v2.py:68-76 | the loop over the named cells builds the reference payload of the row |
| Playback.FillStep | software/vuelo/panel_web/caelum_playback_v2.py:68-76 | one more column extends the payload by its converted value, or leaves it unchanged when the column is dropped |
| Playback.FillKeys | software/vuelo/panel_web/caelum_playback_v2.py:68-76 | a key is in the payload exactly when it names a column of the row that is not dropped |
| Playback.FillLastWins | software/vuelo/panel_web/caelum_playback_v2.py:72-76 | a kept column that no later column repeats gives its key its own value |
| Playback.FillValueFrom | software/vuelo/panel_web/caelum_playback_v2.py:72-76 | every payload value is the converted cell of some column with that name |
| Playback.PayloadKeys | software/vuelo/panel_web/caelum_playback_v2.py:62-77 | the payload keys are exactly the stripped names of the row's numeric and text columns |
| Playback.PayloadLastWins | software/vuelo/panel_web/caelum_playback_v2.py:62-77 | when stripped names repeat, the last column with that name sets the value |
| Playback.PayloadValueKinds | software/vuelo/panel_web/caelum_playback_v2.py:70-76 | a payload value is a number exactly for a numeric column, and text values are stripped |
| Playback.TimestampNumeric | software/vuelo/panel_web/caelum_playback_v2.py:33-34 | `timestamp` is a numeric column |
| Playback.FieldSetsDisjoint | software/vuelo/panel_web/caelum_playback_v2.py:33-40 | no column is both numeric and text |
| Playback.DetectFile | software/vuelo/panel_web/caelum_playback_v2.py:42-49 | no file exactly when neither CSV exists; the flight log is chosen exactly when it exists, even if the simulation also does |
| Playback.SplitTwo | software/vuelo/panel_web/caelum_playback_v2.py:87 | splitting two separator-free parts joined by the separator gives the two parts back |
| Playback.SplitLast | software/vuelo/panel_web/caelum_playback_v2.py:87 | the last part of a split is whatever follows the last separator |
| Playback.ModeOfLastSegment | software/vuelo/panel_web/caelum_playback_v2.py:87 | the mode is the upper-cased text after the last `/` of the route |
| Playback.ReplayMode | software/vuelo/panel_web/caelum_playback_v2.py:45-87 | the replay route gives mode `REPLAY` |
| Playback.SimulationMode | software/vuelo/panel_web/caelum_playback_v2.py:47-87 | the simulation route gives mode `SIMULACION` |
| Playback.DetectedMode | software/vuelo/panel_web/caelum_playback_v2.py:42-87 | when some file exists, the mode is `REPLAY` exactly when the flight log exists, and `SIMULACION` otherwise |
| Playback.UploadKeyFallback | software/vuelo/panel_web/caelum_playback_v2.py:112 | a row without a `timestamp` column is uploaded under its row number |
| Playback.UploadKeyDefined | software/vuelo/panel_web/caelum_playback_v2.py:112 | every row gets an upload key: `timestamp` is numeric, so `int()` never fails on it |
| Playback.NumberValueWhole | software/vuelo/panel_web/caelum_playback_v2.py:72 | a cell written as digits converts to that whole number |
| Playback.UploadKeyWhole | software/vuelo/panel_web/caelum_playback_v2.py:72-112 | a row whose last `timestamp` cell is the digits of `n` is uploaded under key `n` |
| TelemetryReceiver.TextColumns | software/vuelo/panel_web/receptor_telemetria.py:44-49 | the header's text columns sit at positions 1 and 23 |
| TelemetryReceiver.NumericColumnIff | software/vuelo/panel_web/receptor_telemetria.py:44-57 | a header position holds a `CAMPOS_FLOAT` name exactly when it is neither position 1 nor position 23 |
| TelemetryReceiver.FloatFieldsAreHeaderMinusText | software/vuelo/panel_web/receptor_telemetria.py:44-57 | the header has 24 names, and the numeric fields are exactly the header without `datetime` and `fase` |
| TelemetryReceiver.HeaderDistinct | software/vuelo/panel_web/receptor_telemetria.py:44-49 | no name appears twice in the header, so no field overwrites another |
| TelemetryReceiver.DistinctNames | software/vuelo/panel_web/receptor_telemetria.py:44-49 | any two header positions hold different names |
| TelemetryReceiver.Parts | software/vuelo/panel_web/receptor_telemetria.py:68 | splitting always gives at least one part |
| TelemetryReceiver.FieldValue | software/vuelo/panel_web/receptor_telemetria.py:79-90 | a numeric column always gives a number and a text column a stripped string; a column beyond the line gives 0.0 or `''` |
| TelemetryReceiver.ParseLine | software/vuelo/panel_web/receptor_telemetria.py:62-92 | `None` exactly for a line with fewer than 23 parts or whose first part is `timestamp`; otherwise the payload's keys are exactly the 24 header names, each holding its position's converted part |
| TelemetryReceiver.StepKeepsPrefix | software/vuelo/panel_web/receptor_telemetria.py:79-90 | storing one more header name keeps every value stored before it |
| TelemetryReceiver.OnlyPhaseCanBeMissing | software/vuelo/panel_web/receptor_telemetria.py:71-90 | in an accepted line only `fase` can be missing; every other value comes from its part |
| TelemetryReceiver.ExtraPartsIgnored | software/vuelo/panel_web/receptor_telemetria.py:79 | parts beyond the 24th do not change the payload |
| TelemetryReceiver.HeaderNamesPlain | software/vuelo/panel_web/receptor_telemetria.py:44-49 | every header name is non-empty, without commas or whitespace |
| TelemetryReceiver.JoinedNamesTrimmed | software/vuelo/panel_web/receptor_telemetria.py:68 | names like these, joined by commas, survive `strip()` unchanged |
| TelemetryReceiver.LowerTimestamp | software/vuelo/panel_web/receptor_telemetria.py:75 | `"timestamp".lower()` is `"timestamp"` |
| TelemetryReceiver.TimestampName | software/vuelo/panel_web/receptor_telemetria.py:75 | the header's first name passes the header test |
| TelemetryReceiver.NamesLineRejected | software/vuelo/panel_web/receptor_telemetria.py:68-76 | a line of at least 23 such names starting with `timestamp` is rejected |
| TelemetryReceiver.HeaderLineRejected | software/vuelo/panel_web/receptor_telemetria.py:74-76 | the header line itself, if the flight computer sends it again, is rejected |
| TelemetryReceiver.JoinEnds | software/vuelo/panel_web/receptor_telemetria.py:68 | a joined line starts with the first name's first character and ends with the last name's last character |
| TelemetryReceiver.WholeNumberField | software/vuelo/panel_web/receptor_telemetria.py:83-86 | a numeric part written as digits reads back as that number |
| Rules.FirstHit | software/post-vuelo/python/analizar_vuelo.py:100-111 | the index found is that of a rule that holds, with no earlier rule holding, or the table's length when none holds |
| Rules.DecideCons | software/post-vuelo/python/analizar_vuelo.py:100-111 | a table is decided by trying its first rule, then deciding the rest |
| Text.StripTrimmed | software/vuelo/panel_web/receptor_telemetria.py:68 | `strip()` changes nothing on text without surrounding whitespace |
| Text.LowerIdempotent | software/post-vuelo/python/analizar_vuelo_v4.py:72 | lower-casing twice is lower-casing once |
| Text.SplitJoin | software/vuelo/panel_web/receptor_telemetria.py:68 | splitting comma-joined, comma-free parts gives the parts back |
| Text.Hex2RoundTrip | python/generar_kml_mision2.py:33 | `{n:02x}` of a byte reads back as the same byte |
| Text.ParseFloatNat | software/vuelo/panel_web/receptor_telemetria.py:86 | `float()` of a whole number's digits is that number |

## Left out

- Plotting and rendering are left out: matplotlib graphs, folium maps, simplekml and KML file writing, HTML reports. They produce files through third-party libraries and state nothing checkable. The values they are given are modelled: colours, radii, opacities, placemarks, and the cylinder height the mission-2 KML writes into each description (its polygons carry no altitude).
- Serial capture and uploads are left out: reading the radio port, `escribir_csv` and `enviar_firebase` in the receiver, the `requests.put` loop of `ejecutar_mision`, `limpiar_firebase`, and the two `caelum_ground_station.py` loops. These are I/O and network code.
- `detectar_fichero` checks whether the CSV files exist. That check is modelled by two boolean inputs. Reading the CSV with `csv.DictReader` is not modelled: a row is given as a sequence of (column name, cell) pairs, a short row's missing cells are `Missing`, and a long row's extra cells are the separate list `rest`.
- The random fixture generators (`generar_datos_ejemplo`, the fallback datasets of the curtain maps) are left out: they only draw seeded random values.
- The simulators' random-number generator is not modelled. Each `np.random.uniform(a, b)` draw is a caller-supplied real constrained to `[a, b]`; seeds and determinism are not modelled.
- Transcendental maths is left out:
  - the pressure formulas (`exp` and `** 5.25588`);
  - the circle polygons (`cos`/`sin`);
  - the longitude-degree conversion, and the latitude/longitude drift of the simulators.
  Simulator records therefore carry no position, pressure, IMU or satellite values.
- `round()` is left out: the simulators' readings are kept before rounding to one decimal.
- Statistics are left out: `mean`/`std` anomaly thresholds (they need a square root), `datetime`/`isoformat` timestamps, and pandas NaN propagation beyond the CO2 column that `cargar_datos` marks as missing.
- InversionSimulator.FlightRecord: the record keeps the profile's temperature (as written, with its drop at 350 m) and the true humidity. The per-sensor noisy copies are stated separately, by `TemperatureSensors` and `HumiditySensors`, and are not stored in the record.
- InversionSimulator.AppendGround: the five ground records keep the true ground temperature and humidity (`TEMP_SUELO`, `HUMEDAD_SUELO`). The noisy sensor copies the script writes are left out, as in the flight records.
- ProfileAnalysis.Profile: the bin width is the constant 50 m, because the script's only call (`analizar_vuelo_v4.py:601`) uses the default `bin_size`. Other widths are not modelled.
- ProfileAnalysis.SortByTime: the sort is a stable insertion sort. pandas' default `sort_values` is not stable, so rows with equal timestamps may come out in a different order. The contract states only what both share: timestamp order and a permutation.
- ProfileAnalysis.ColorPm25: a missing PM2.5 reading is read as 0, as `row.get('pm2_5', 0)` does for a missing column. A NaN cell, which pandas compares as false at every cut point and paints red, is not modelled.
- TelemetryReceiver.FieldValue and Playback.Converted: `float()` is modelled on decimal literals only: surrounding whitespace, a sign, digits with an optional point, and an optional exponent. Python also accepts `nan`, `inf` and digits with underscores. The model turns those into the 0.0 fallback.
- Playback.UploadKeyDefined: the `int()` of a non-finite number (`OverflowError`/`ValueError` on `inf`/`nan`) is not modelled, because those texts are not parsed (see the line above).
- The comment of the receiver's header (`receptor_telemetria.py:43`) says 25 fields, but `CABECERA` lists 24 names. The model follows the code: 24 names.
- `create_circle`, `crear_circulo` and the wind drift are not part of this model (cos/sin).
- Text.IsSpace: only the six ASCII whitespace characters count. Python's `str.strip()` also removes `\x1c`–`\x1f`, `\x85`, `\xa0` and the Unicode spaces; `Text.Strip` and `Text.StripTrimmed` keep those.
- Text.LowerChar and Text.UpperChar: only ASCII letters change case. Python's `lower()`/`upper()` also map accented and other non-ASCII letters.
- The simulated descent uses the temperature profile as the script writes it, with its drop at 350 m. The corrected, continuous profile is proved about separately and is not fed to the simulator.

## Findings

| source | as written | input that shows it | evidently intended | confidence | as-written member | corrected member |
|---|---|---|---|---|---|---|
| mapa_cortina_optimizado.py:225-227 | `pd.cut` with its default right-closed bins `(0, 300]`, `(300, 660]`, … puts each cut point one level below the colour `get_smoke_color` gives it (strict `<` tests) | TVOC 300 ppb: the summary counts it "Excelente", the map draws it "Buena" | left-closed bins (`right=False`), so each summary level matches the colour drawn | medium, not executed | SmokeCurtainOptimized.LevelAsWrittenDisagrees, SmokeCurtainOptimized.BoundaryCounterexample | SmokeCurtainOptimized.LevelMatchesColour, SmokeCurtainOptimized.CountLevelMatchesColours |
| python/generar_kml_mision2.py:128 (also docs/analisis_post_vuelo/scripts/generar_kml.py:120 and software/post-vuelo/python/analizar_vuelo.py:316, on PM2.5 colours) | the outline colour is `color_kml.replace('bb', 'ff')`, which rewrites every `bb` in the string, the green and red bytes included | TVOC 632 in a 0–1000 ppb frame: the fill is `bb00bbff` (green 187), and the outline becomes `ff00ffff` (green 255) instead of `ff00bbff` | only the alpha byte becomes `ff` | high, not executed | KmlMission2.FillCounterexample, KmlMission2.OutlineCounterexample, KmlMission2.OutlineCounterexampleChannels, FlightAnalysis.OutlineCounterexample | KmlMission2.OutlineColor, KmlColor.Opaque, FlightAnalysis.Cylinders |
| software/simulacion/simulador_inversion_termica.py:108-111 | above 350 m the lapse rate restarts from the temperature the normal lapse rate would give at 350 m (`12 - 0.35·6.5`), not from the top of the inversion | altitude 350 m: the profile falls by 1.425 °C as the altitude reaches 350 m from below (at 349 m it is more than 1.4 °C warmer than at 350 m) | a continuous profile: above the inversion, the lapse rate restarts from the inversion's top temperature | medium, not executed | InversionSimulator.TemperatureJumpAtTop, InversionSimulator.TemperatureAsWrittenShape, InversionSimulator.FlightRecord | InversionSimulator.Temperature, InversionSimulator.TemperatureContinuous |
| software/post-vuelo/python/analizar_vuelo_v4.py:78,90,92 | the GPS mask is computed on the raw frame. The frame is then filtered, sorted and re-indexed, so `df[tiene_gps]` aligns the mask by the new labels, which name different rows | raw rows [a row with a fix at t=2, a row without a fix at t=1]: after the sort, label 0 is the row without a fix, and it is selected | the rows of the cleaned frame that have a fix | medium, not executed | ProfileAnalysis.GpsByLabel, ProfileAnalysis.GpsMaskCounterexample | ProfileAnalysis.WithFix, ProfileAnalysis.LoadData |
