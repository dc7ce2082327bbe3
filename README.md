# Solar Forecast ML — a verified model of the decision and bookkeeping core

Solar Forecast ML is a Home Assistant integration. It forecasts the output of a
photovoltaic installation, learns from the measured production and keeps
statistics about it. This project models in Dafny the parts of it that make
decisions or keep books:

- the circuit breaker that guards failing operations;
- the learning filter that keeps abnormal hours out of training;
- frost detection;
- the weather factors and the cloud-to-transmission tables;
- the seasonal factors and the clear-sky DNI tracker;
- the record types of the ML layer and their normalisation;
- the chain of prediction strategies: a linear model, an hourly profile, and a fallback;
- the blending of ML and rule-based forecasts, and the real-time hourly adjustment;
- the physics engine (angle of incidence, plane-of-array irradiance, temperature, power);
- the production-time tracker;
- the battery charging tracker of the grid-price monitor, and its price calculator;
- the data manager's sample clean-ups and forecast merging;
- the coordinator's helper functions.

Each source file becomes one Dafny module.

- **Pure code** becomes datatypes, functions and lemmas.
- **Objects whose methods update fields** become classes. Examples are the
  breaker, the seasonal adjuster, the DNI tracker, the production tracker, the
  battery tracker, the price calculator, the strategy orchestrator and the data
  store. Their methods state the whole new state against specification
  functions, and lemmas prove the promised properties of those functions.
- **Python dictionaries** become `map`s.
- **JSON-like records** become a `Value` datatype.
- **Floating-point numbers** become `real`.
- **Trigonometry, logarithms, exponentials, the clock, the time zone and
  string parsing** become parameters.

## Model

| member | source | states |
|---|---|---|
| CircuitBreakers.Initial | custom_components/solar_forecast_ml/error_handling_service.py:87-95 | a new breaker is closed, with no failures, successes, failure time, opening time or per-type error counts |
| CircuitBreakers.ChangeState | custom_components/solar_forecast_ml/error_handling_service.py:110-126 | a transition to the current state changes nothing; otherwise both counters are reset and the change time is recorded; an opening time exists exactly when the new state is open; error-type counts are cleared exactly when closing |
| CircuitBreakers.AfterAllow | custom_components/solar_forecast_ml/error_handling_service.py:129-158 | closed and half-open breakers are left alone; an open breaker whose timeout has passed becomes half-open without an opening time, otherwise it is left alone |
| CircuitBreakers.RecordSuccess | custom_components/solar_forecast_ml/error_handling_service.py:161-172 | a success matters only when half-open: it closes the breaker once the success threshold is reached, and otherwise counts one more success |
| CircuitBreakers.RecordFailure | custom_components/solar_forecast_ml/error_handling_service.py:174-202 | the failure time is recorded and the error type counted; a failure opens the breaker when it is half-open, when the error is a configuration error, or when the failure threshold is reached while closed; otherwise one more failure is counted |
| CircuitBreakers.Reset | custom_components/solar_forecast_ml/error_handling_service.py:205-209 | the breaker ends closed with no failure time; from another state the counts and the opening time are cleared |
| CircuitBreakers.InitialInv | custom_components/solar_forecast_ml/error_handling_service.py:79-95 | a breaker built from an accepted configuration satisfies the breaker invariant |
| CircuitBreakers.OperationsKeepInv | custom_components/solar_forecast_ml/error_handling_service.py:129-209 | allow, success, failure and reset all preserve the invariant: counters within their thresholds, and an opening time exactly when open |
| CircuitBreakers.OpenBlocksUntilTimeout | custom_components/solar_forecast_ml/error_handling_service.py:139-149 | an open breaker allows a request if and only if the open timeout has elapsed since it opened, and then moves to half-open |
| CircuitBreakers.FailuresBelowThresholdStayClosed | custom_components/solar_forecast_ml/error_handling_service.py:187-192 | a closed breaker stays closed and counts every failure while the count stays below the threshold |
| CircuitBreakers.ThresholdFailuresOpen | custom_components/solar_forecast_ml/error_handling_service.py:187-192 | failures that bring a closed breaker to the threshold open it |
| CircuitBreakers.RecordFailuresSplit | custom_components/solar_forecast_ml/error_handling_service.py:174-202 | recording a run of failures is the same as recording its two halves one after the other |
| CircuitBreakers.SuccessesOutsideHalfOpenChangeNothing | custom_components/solar_forecast_ml/error_handling_service.py:161-172 | successes change nothing unless the breaker is half-open |
| CircuitBreakers.ThresholdSuccessesClose | custom_components/solar_forecast_ml/error_handling_service.py:161-172 | enough successes close a half-open breaker |
| CircuitBreakers.CircuitBreaker.constructor | custom_components/solar_forecast_ml/error_handling_service.py:70-98 | the object holds the given configuration and the initial breaker state |
| CircuitBreakers.CircuitBreaker.Create | custom_components/solar_forecast_ml/error_handling_service.py:79-80 | construction fails if and only if a threshold or the timeout is below 1 |
| CircuitBreakers.CircuitBreaker.ChangeStateTo | custom_components/solar_forecast_ml/error_handling_service.py:110-126 | the new state is the specified transition of the old one |
| CircuitBreakers.CircuitBreaker.AllowRequest | custom_components/solar_forecast_ml/error_handling_service.py:129-158 | returns the specified decision, applies the specified transition, and keeps the invariant |
| CircuitBreakers.CircuitBreaker.RecordSuccessAt | custom_components/solar_forecast_ml/error_handling_service.py:161-172 | the new state is the specified success transition, and the invariant is kept |
| CircuitBreakers.CircuitBreaker.RecordFailureAt | custom_components/solar_forecast_ml/error_handling_service.py:174-202 | the new state is the specified failure transition, and the invariant is kept |
| CircuitBreakers.CircuitBreaker.ResetAt | custom_components/solar_forecast_ml/error_handling_service.py:205-209 | the new state is the specified reset, and the invariant is kept |
| LearningFilter.ShouldExcludeHour | custom_components/solar_forecast_ml/data/data_learning_filter.py:35-97 | an hour is excluded exactly when a reason is given; a hardware or environment flag always excludes it; in the panel-group context an "unexpected_clouds" alert alone does not exclude it; otherwise the explicit flag or any weather alert does |
| LearningFilter.Kept | custom_components/solar_forecast_ml/data/data_learning_filter.py:117-126 | the kept predictions are no more than the input, and none of them is excluded |
| LearningFilter.KeptAndDroppedPartition | custom_components/solar_forecast_ml/data/data_learning_filter.py:117-126 | kept hours plus recorded exclusion reasons account for every input hour |
| LearningFilter.NotExcludedIsKept | custom_components/solar_forecast_ml/data/data_learning_filter.py:117-126 | every hour that is not excluded is kept |
| LearningFilter.TallySum | custom_components/solar_forecast_ml/data/data_learning_filter.py:120-121 | the per-reason exclusion counts add up to the number of reasons recorded |
| LearningFilter.FilterPredictionsForLearning | custom_components/solar_forecast_ml/data/data_learning_filter.py:100-135 | returns exactly the kept hours, in order, with per-reason counts that sum to the number of dropped hours |
| LearningFilter.Relevant | custom_components/solar_forecast_ml/data/data_learning_filter.py:157-164 | with the production-hours option, an hour remains exactly when it is a production hour of the input; without it, the input is returned unchanged |
| LearningFilter.RelevantSnoc | custom_components/solar_forecast_ml/data/data_learning_filter.py:157-164 | appending an hour to the input appends it to the result exactly when it is a production hour, so the kept hours stay in their original order |
| LearningFilter.ExcludedCountSnoc | custom_components/solar_forecast_ml/data/data_learning_filter.py:169-173 | the excluded count grows by one exactly for an excluded hour |
| LearningFilter.CalculateExcludedHoursRatio | custom_components/solar_forecast_ml/data/data_learning_filter.py:138-178 | the ratio is excluded over relevant hours, lies in [0, 1], and is 0 with zero counts when nothing is relevant |
| LearningFilter.ShouldSkipDailyLearning | custom_components/solar_forecast_ml/data/data_learning_filter.py:181-204 | learning is skipped exactly when the production-hour exclusion ratio exceeds the threshold; a day with no production hour has ratio 0 and is not skipped under a non-negative threshold |
| FrostDetection.Dewpoint | custom_components/solar_forecast_ml/data/data_frost_detection.py:270-284 | humidity is clamped to [1, 100] and a vanishing denominator falls back to temperature − (100 − humidity)/5; with a logarithm that is 0 at 1, saturated air has the air temperature as dew point; with a logarithm that is not positive on (0, 1], the dew point never exceeds the air temperature above −237.7 °C |
| FrostDetection.WindFrostFactor | custom_components/solar_forecast_ml/data/data_frost_detection.py:286-299 | the factor lies in [0.05, 1]; it is 1 exactly below 0.5 m/s and 0.05 exactly from 6 m/s |
| FrostDetection.WindFrostFactorAntitone | custom_components/solar_forecast_ml/data/data_frost_detection.py:286-299 | more wind never raises the frost factor |
| FrostDetection.MarginProbability | custom_components/solar_forecast_ml/data/data_frost_detection.py:332-344 | the probability from the frost margin lies in [0.05, 0.95] |
| FrostDetection.TemperatureFrostFactor | custom_components/solar_forecast_ml/data/data_frost_detection.py:346-355 | the temperature factor lies in [0.2, 1] |
| FrostDetection.FrostProbability | custom_components/solar_forecast_ml/data/data_frost_detection.py:301-359 | the probability lies in [0, 1]; it is 0 when the dew point is above 0 °C or the air is above 3 °C; otherwise it is the product of the margin, temperature and wind factors |
| FrostDetection.DynamicThreshold | custom_components/solar_forecast_ml/data/data_frost_detection.py:361-397 | the correlation threshold lies in [0.05, 0.35] |
| FrostDetection.DynamicThresholdUnclamped | custom_components/solar_forecast_ml/data/data_frost_detection.py:361-397 | the adjustments alone already keep the threshold within [0.08, 0.28], so the final clamp never acts |
| FrostDetection.ExpectedRadiation | custom_components/solar_forecast_ml/data/data_frost_detection.py:399-417 | for an exponential that is non-decreasing and in (0, 1] on non-positive arguments, and a non-negative cover (50 % when unknown), the expected radiation lies between 0 and the theoretical maximum, and is positive when the maximum is |
| FrostDetection.ExpectedRadiationAntitone | custom_components/solar_forecast_ml/data/data_frost_detection.py:399-417 | more cloud cover never raises the expected radiation |
| FrostDetection.TempScore | custom_components/solar_forecast_ml/data/data_frost_detection.py:162-169 | the score lies in 0..3 and is 0 exactly at or above 0 °C |
| FrostDetection.HumidityScore | custom_components/solar_forecast_ml/data/data_frost_detection.py:171-182 | the score lies in 0..2 and is 2 above 85 % humidity or with a sub-zero dew point within 2 °C of the air |
| FrostDetection.WindScore | custom_components/solar_forecast_ml/data/data_frost_detection.py:184-189 | the score lies in 0..2 and is 0 exactly from 3 m/s |
| FrostDetection.RadiationScore | custom_components/solar_forecast_ml/data/data_frost_detection.py:191-209 | the score lies in 0..3, and a radiation deficit above the threshold, when frost is physically possible, scores at least 1 |
| FrostDetection.ProbabilityBonus | custom_components/solar_forecast_ml/data/data_frost_detection.py:212-216 | the bonus lies in 0..2 |
| FrostDetection.Classify | custom_components/solar_forecast_ml/data/data_frost_detection.py:235-252 | heavy frost exactly from the heavy threshold; light frost exactly between the light and heavy thresholds; none below |
| FrostDetection.FrostScore | custom_components/solar_forecast_ml/data/data_frost_detection.py:143-218 | the summed partial scores, capped at 10, lie in 0..10 |
| FrostDetection.DetectFrost | custom_components/solar_forecast_ml/data/data_frost_detection.py:44-268 | the score lies in 0..10 and the confidence and probability in [0, 1]; the detected level is the classification of the score; a detection has confidence score/10; missing inputs give no frost and a theoretical maximum under 5 W/m² skips the night; past those checks the probability is the frost probability of the dew point, margin and wind factor, and the physical-frost flag is dew point below 0 with margin under 3; frost is ruled out when physically impossible; otherwise an expected radiation under 3 skips, and from 3 on the score is the frost score of the readings |
| FrostDetection.ShouldExcludeFromTraining | custom_components/solar_forecast_ml/data/data_frost_detection.py:419-421 | an hour is excluded from training exactly when heavy frost was detected |
| FrostDetection.ExcludedFromTrainingIffHeavyScore | custom_components/solar_forecast_ml/data/data_frost_detection.py:419-421 | exclusion happens exactly when the frost score reaches the heavy threshold |
| WeatherCalculator.SeasonOf | custom_components/solar_forecast_ml/forecast/weather_calculator.py:213-224 | December to February is winter, March to May spring, June to August summer, and every other month autumn |
| WeatherCalculator.SeasonalFactor | custom_components/solar_forecast_ml/forecast/weather_calculator.py:42-56 | every seasonal factor lies in [0.35, 1] |
| WeatherCalculator.TemperatureFactor | custom_components/solar_forecast_ml/forecast/weather_calculator.py:80-111 | 0.9 without a reading and 0.85 below freezing; it rises linearly to 1 at the optimum, falls but stays at least 0.7 above it, and always lies in [0.7, 1] |
| WeatherCalculator.TemperatureFactorShape | custom_components/solar_forecast_ml/forecast/weather_calculator.py:80-111 | the factor is monotone up to the optimum, antitone beyond it, and 1 at the optimum |
| WeatherCalculator.CloudFactor | custom_components/solar_forecast_ml/forecast/weather_calculator.py:113-145 | 0.6 without a reading, and always within [0.15, 1] |
| WeatherCalculator.CloudFactorAntitone | custom_components/solar_forecast_ml/forecast/weather_calculator.py:113-145 | more cloud never raises the factor; coverage is clamped to 0..100 |
| WeatherCalculator.ConditionFactor | custom_components/solar_forecast_ml/forecast/weather_calculator.py:147-170 | 1 for a missing, empty, non-text or unknown condition, and always within [0.2, 1] |
| WeatherCalculator.ConditionFactorCaseInsensitive | custom_components/solar_forecast_ml/forecast/weather_calculator.py:157-165 | conditions that differ only in letter case get the same factor |
| WeatherCalculator.SeasonalAdjustment | custom_components/solar_forecast_ml/forecast/weather_calculator.py:172-211 | the monthly adjustment lies within [0.2, 1.2] |
| WeatherCalculator.SeasonalAdjustmentValues | custom_components/solar_forecast_ml/forecast/weather_calculator.py:172-211 | December and January get 0.2975, June and July 1.05, and every other month its season's factor |
| WeatherCalculator.CurrentSeason | custom_components/solar_forecast_ml/forecast/weather_calculator.py:213-224 | months outside 1..8 and 12 fall to autumn |
| WeatherCalculator.CombinedWeatherFactor | custom_components/solar_forecast_ml/forecast/weather_calculator.py:226-273 | the combined factor is positive and at most 1, or at most 1.2 with the seasonal adjustment |
| WeatherCalculator.CombinedIsProduct | custom_components/solar_forecast_ml/forecast/weather_calculator.py:226-273 | the combined factor is the product of the temperature, cloud and condition factors, times the seasonal adjustment when that is included |
| WeatherTypes.FogBelowLightFog | custom_components/solar_forecast_ml/data/weather_types.py:36-37 | the fog visibility threshold is positive and below the light-fog threshold |
| WeatherTypes.DefaultExpertWeightsAreDistributions | custom_components/solar_forecast_ml/data/weather_types.py:40-104 | every cloud type has expert weights for all five experts, non-negative and summing to 1 |
| WeatherTypes.Tau | custom_components/solar_forecast_ml/data/weather_types.py:107-117 | an unknown cloud type gets 0.35, and every transmission coefficient lies in [0, 1] |
| WeatherTypes.TauTableCoversCloudTypes | custom_components/solar_forecast_ml/data/weather_types.py:107-117 | every cloud type has a transmission coefficient, and all lie within [0, 1] |
| WeatherTypes.CloudToTransmission | custom_components/solar_forecast_ml/data/weather_types.py:120-127 | the transmission lies in 0..100 % |
| WeatherTypes.NoCloudFullTransmission | custom_components/solar_forecast_ml/data/weather_types.py:120-127 | a clear sky transmits 100 % |
| WeatherTypes.TransmissionAntitone | custom_components/solar_forecast_ml/data/weather_types.py:120-127 | more cloud never raises the transmission, before or after rounding |
| WeatherTypes.FullCoverTransmitsTau | custom_components/solar_forecast_ml/data/weather_types.py:120-127 | full cover transmits exactly the cloud type's coefficient |
| SeasonalAdjusting.DefaultFactor | custom_components/solar_forecast_ml/ai/ai_seasonal.py:17-30 | every default monthly factor lies within [0.85, 1.10] |
| SeasonalAdjusting.ClampedRatio | custom_components/solar_forecast_ml/ai/ai_seasonal.py:76-77 | the ratio of actual to predicted is clamped to the factor bounds, and is kept when already within them |
| SeasonalAdjusting.Alpha | custom_components/solar_forecast_ml/ai/ai_seasonal.py:79-82 | the learning rate is 0.1 for fewer than ten samples and 0.05 afterwards |
| SeasonalAdjusting.NextFactorIsConvexMix | custom_components/solar_forecast_ml/ai/ai_seasonal.py:69-84 | the updated factor lies between the old factor and the clamped ratio, so factors stay within their bounds |
| SeasonalAdjusting.NextFactorApproachesRatio | custom_components/solar_forecast_ml/ai/ai_seasonal.py:69-84 | each update shrinks the distance to the clamped ratio by the factor (1 − alpha) |
| SeasonalAdjusting.SeasonalAdjuster.constructor | custom_components/solar_forecast_ml/ai/ai_seasonal.py:36-51 | every month starts at its default factor with no samples |
| SeasonalAdjusting.SeasonalAdjuster.GetFactor | custom_components/solar_forecast_ml/ai/ai_seasonal.py:63-67 | an invalid month gets 1; a valid month gets its stored factor, which lies within the bounds |
| SeasonalAdjusting.SeasonalAdjuster.Update | custom_components/solar_forecast_ml/ai/ai_seasonal.py:69-84 | an accepted sample moves only its month's factor to the next factor and counts it; a rejected sample changes nothing |
| DniTracking.MaxOfIsMaximum | custom_components/solar_forecast_ml/ai/ai_dni_tracker.py:86 | the maximum of a non-empty history is one of its values and no value exceeds it |
| DniTracking.LastDays | custom_components/solar_forecast_ml/ai/ai_dni_tracker.py:82-83 | the history keeps at most the configured number of days |
| DniTracking.LastDaysIsSuffix | custom_components/solar_forecast_ml/ai/ai_dni_tracker.py:82-83 | the kept days are the newest ones, and a short history is kept whole |
| DniTracking.RecordedKeepsMaximum | custom_components/solar_forecast_ml/ai/ai_dni_tracker.py:59-72 | recording keeps the day's highest reading, and never lowers it |
| DniTracking.EndOfDayHistory | custom_components/solar_forecast_ml/ai/ai_dni_tracker.py:74-91 | the history after the end of day holds between one and the configured number of days |
| DniTracking.EndOfDayKeepsNewest | custom_components/solar_forecast_ml/ai/ai_dni_tracker.py:74-91 | a non-zero reading for today ends the history, which keeps the newest days; otherwise the history ends in 0 |
| DniTracking.NewDayHistory | custom_components/solar_forecast_ml/ai/ai_dni_tracker.py:93-100 | a new day adds one slot, up to the configured number of days |
| DniTracking.NewDayShiftsHistory | custom_components/solar_forecast_ml/ai/ai_dni_tracker.py:93-100 | the new slot is 0 and the rest are the newest previous days |
| DniTracking.EndOfDayMaximumBounds | custom_components/solar_forecast_ml/ai/ai_dni_tracker.py:79-86 | the stored maximum is a value of the history and bounds all of it |
| DniTracking.DniTracker.constructor | custom_components/solar_forecast_ml/ai/ai_dni_tracker.py:25-41 | every tracked hour starts with maximum 0 and an empty history, with no update time |
| DniTracking.DniTracker.GetMaxDni | custom_components/solar_forecast_ml/ai/ai_dni_tracker.py:53-57 | an untracked hour gets 0, and a tracked hour its stored maximum |
| DniTracking.DniTracker.RecordDni | custom_components/solar_forecast_ml/ai/ai_dni_tracker.py:59-72 | a non-negative reading for a tracked hour updates only that hour's history; anything else changes nothing |
| DniTracking.DniTracker.EndOfDayUpdate | custom_components/solar_forecast_ml/ai/ai_dni_tracker.py:74-91 | every tracked hour's history is cut to the window, its maximum becomes the window's maximum, and the update time is set |
| DniTracking.DniTracker.StartNewDay | custom_components/solar_forecast_ml/ai/ai_dni_tracker.py:93-100 | every tracked hour's history gets a new zero slot, and the maxima stay |
| MlTypes.NormalisedRecord | custom_components/solar_forecast_ml/ml/types.py:62-74 | after normalisation a record is in range; the predicted value is clamped at 0; the actual value and accuracy are clamped only when present; the other fields are kept |
| MlTypes.NormalisedRecordIdempotent | custom_components/solar_forecast_ml/ml/types.py:62-74 | normalisation leaves in-range records unchanged, so applying it twice is the same as once |
| MlTypes.FirstMissing | custom_components/solar_forecast_ml/ml/types.py:267-269 | reports the first required field missing from a record, and nothing exactly when all are present |
| MlTypes.ValidatePredictionRecord | custom_components/solar_forecast_ml/ml/types.py:246-290 | succeeds exactly for a well-formed record; a missing required field is reported by name; each other error names a value out of its range |
| MlTypes.RecordAsDict | custom_components/solar_forecast_ml/ml/types.py:52-60 | the dictionary form carries every required field and the actual value |
| MlTypes.NormalisedRecordValidates | custom_components/solar_forecast_ml/ml/types.py:246-290 | the dictionary form of any normalised record passes validation |
| MlTypes.NormalisedWeights | custom_components/solar_forecast_ml/ml/types.py:109-132 | normalised weights are in range; the correction factor is clamped and kept when already within its bounds; the other fields are kept |
| MlTypes.NormalisedWeightsIdempotent | custom_components/solar_forecast_ml/ml/types.py:109-132 | normalisation leaves in-range weights unchanged, so applying it twice is the same as once |
| MlTypes.DefaultLearnedWeights | custom_components/solar_forecast_ml/ml/types.py:178-207 | the default weights are empty, with zero bias, zero accuracy, zero samples, a correction factor of 1 and the default feature names, and are already normalised |
| MlTypes.FilledAverage | custom_components/solar_forecast_ml/ml/types.py:165-173 | a filled hourly average is non-negative and keeps any non-negative stored value |
| MlTypes.FilledAveragesCoverDay | custom_components/solar_forecast_ml/ml/types.py:154-173 | after filling, every hour 0..23 has an average, non-negative stored values are kept, other keys are untouched, and no other keys appear |
| MlTypes.FilledAveragesIdempotent | custom_components/solar_forecast_ml/ml/types.py:154-173 | filling a profile that already covers the day changes nothing, so filling twice is the same as once |
| MlTypes.FillHours | custom_components/solar_forecast_ml/ml/types.py:165-173 | the loop over the 24 hours computes the specified filled averages |
| MlTypes.NormalisedProfile | custom_components/solar_forecast_ml/ml/types.py:154-173 | a negative sample count becomes 0, an in-range confidence is kept, and the update time is kept |
| MlTypes.NormalisedProfileInRange | custom_components/solar_forecast_ml/ml/types.py:154-173 | a normalised profile is in range, and normalising it again changes nothing |
| MlTypes.NewHourlyProfile | custom_components/solar_forecast_ml/ml/types.py:154-173 | construction yields the normalised profile, which is in range |
| MlTypes.DefaultAverage | custom_components/solar_forecast_ml/ml/types.py:221-231 | the default hourly value is non-negative and is 0 outside 6..17 |
| MlTypes.DefaultHourlyProfile | custom_components/solar_forecast_ml/ml/types.py:210-241 | the default profile covers exactly the hours of the day with the sine-shaped default values, with no samples and confidence 0.1 |
| MlTypes.DefaultProfileIsNormal | custom_components/solar_forecast_ml/ml/types.py:210-241 | normalising the default profile changes nothing |
| PredictionStrategies.ClipToHour | custom_components/solar_forecast_ml/ml/prediction_strategies.py:78 | the clipped prediction lies within [0, max], and is unchanged when already there |
| PredictionStrategies.NewMlModel | custom_components/solar_forecast_ml/ml/prediction_strategies.py:48-62 | the hourly maximum is peak power times the safety margin, or the default when no positive peak is configured |
| PredictionStrategies.WeightedSumAppend | custom_components/solar_forecast_ml/ml/prediction_strategies.py:71-73 | the weighted sum over a concatenation of features is the sum over each part |
| PredictionStrategies.UnweightedFeaturesContributeNothing | custom_components/solar_forecast_ml/ml/prediction_strategies.py:72 | features without a weight add nothing to the prediction |
| PredictionStrategies.MlConfidence | custom_components/solar_forecast_ml/ml/prediction_strategies.py:93-105 | the confidence lies in [0, 1], and is 0.5 without an accuracy |
| PredictionStrategies.ConfidenceMonotone | custom_components/solar_forecast_ml/ml/prediction_strategies.py:97-105 | a higher accuracy never lowers the confidence |
| PredictionStrategies.MlOutcome | custom_components/solar_forecast_ml/ml/prediction_strategies.py:64-88 | the model raises exactly when it has no weights; otherwise the prediction lies within [0, max], the confidence within [0, 1], and the accuracy and method name are reported |
| PredictionStrategies.MlOutcomeIsLinear | custom_components/solar_forecast_ml/ml/prediction_strategies.py:68-78 | when bias + Σ weight·feature already lies within [0, max], it is the prediction |
| PredictionStrategies.MlPredict | custom_components/solar_forecast_ml/ml/prediction_strategies.py:64-88 | the feature loop computes the specified model outcome |
| PredictionStrategies.NewProfile | custom_components/solar_forecast_ml/ml/prediction_strategies.py:113-118 | the profile strategy's maximum is twice the default hourly maximum |
| PredictionStrategies.ProfileOutcome | custom_components/solar_forecast_ml/ml/prediction_strategies.py:120-144 | the profile strategy raises exactly without a profile; otherwise the prediction lies within [0, max], with confidence 0.6 and no accuracy; an hour the profile lacks predicts 0 |
| PredictionStrategies.ProfileClearSkyIsAverage | custom_components/solar_forecast_ml/ml/prediction_strategies.py:124-134 | under a clear sky and the neutral seasonal factor, the prediction is the hour's stored average |
| PredictionStrategies.FallbackPrediction | custom_components/solar_forecast_ml/ml/prediction_strategies.py:157-165 | the fallback prediction is non-negative, and 0 before 6 h and after 20 h |
| PredictionStrategies.FallbackBelowPeak | custom_components/solar_forecast_ml/ml/prediction_strategies.py:160-165 | with inputs in their ranges, the fallback never exceeds its 5000 base peak |
| PredictionStrategies.FallbackOutcome | custom_components/solar_forecast_ml/ml/prediction_strategies.py:152-173 | the fallback answers with a non-negative prediction, confidence 0.3 and the name "simple_fallback", and 0 at night |
| PredictionStrategies.AvailableStrategiesAnswer | custom_components/solar_forecast_ml/ml/prediction_strategies.py:90-91 | an available strategy never raises, and an unavailable one is never asked |
| PredictionStrategies.StrategyPredict | custom_components/solar_forecast_ml/ml/prediction_strategies.py:64-173 | each strategy's predict computes its specified outcome |
| PredictionStrategies.StrategiesFor | custom_components/solar_forecast_ml/ml/prediction_strategies.py:199-215 | the rebuilt list holds the model exactly when there are weights, first, the profile exactly when there is one, and the fallback last and only there |
| PredictionStrategies.ModelAnswersFirst | custom_components/solar_forecast_ml/ml/prediction_strategies.py:187-215 | with trained weights the first registered strategy answers with the linear model's prediction |
| PredictionStrategies.ThinProfileFallsBack | custom_components/solar_forecast_ml/ml/prediction_strategies.py:187-215 | without weights and with a profile of at most ten samples, no strategy before the registered fallback answers, and the fallback answers with the simple fallback prediction |
| PredictionStrategies.RebuiltListAlwaysAnswers | custom_components/solar_forecast_ml/ml/prediction_strategies.py:187-215 | after a rebuild some registered strategy always answers |
| PredictionStrategies.PredictionOrchestrator.constructor | custom_components/solar_forecast_ml/ml/prediction_strategies.py:181-182 | a new orchestrator has no strategies |
| PredictionStrategies.PredictionOrchestrator.RegisterStrategy | custom_components/solar_forecast_ml/ml/prediction_strategies.py:184-185 | registering appends the strategy at the end |
| PredictionStrategies.PredictionOrchestrator.Predict | custom_components/solar_forecast_ml/ml/prediction_strategies.py:187-197 | the answer is the outcome of the first strategy that is available and does not raise, or the fallback's when there is none |
| PredictionStrategies.PredictionOrchestrator.UpdateStrategies | custom_components/solar_forecast_ml/ml/prediction_strategies.py:199-215 | the strategy list is replaced by the specified list |
| ForecastBlending.SeasonalWindowsNested | custom_components/solar_forecast_ml/forecast/orchestrator.py:114-124 | the winter production window lies inside the spring one, which lies inside the summer one, and all lie within 5..20 h |
| ForecastBlending.SunMarginExcludesDawn | custom_components/solar_forecast_ml/forecast/orchestrator.py:92-110 | an hour before sunrise plus the margin is never a production hour |
| ForecastBlending.AccuracyWeight | custom_components/solar_forecast_ml/forecast/orchestrator.py:301-304 | the ML weight lies in [0, 1]: 0 without an ML forecast, the conservative weight below the accuracy threshold, and the clamped accuracy above it |
| ForecastBlending.MixBetween | custom_components/solar_forecast_ml/forecast/orchestrator.py:306-318 | a blend lies between the two forecasts it mixes |
| ForecastBlending.BlendInputs | custom_components/solar_forecast_ml/forecast/orchestrator.py:286-318 | with one forecast missing the other is used for both; with none everything is 0; with both each figure is weighted by the ML weight |
| ForecastBlending.Blend | custom_components/solar_forecast_ml/forecast/orchestrator.py:286-348 | the method is rule-based at weight 0, ML at weight 1 and blended in between; the accuracy is reported only with a predictor; the peak time is noon |
| ForecastBlending.BlendBetweenStrategies | custom_components/solar_forecast_ml/forecast/orchestrator.py:306-348 | the blended forecast for today lies between the two forecasts, up to rounding; without ML it is the rounded rule-based forecast |
| ForecastBlending.PositiveTotalAt | custom_components/solar_forecast_ml/forecast/orchestrator.py:426-434 | the profile total splits into any hour's positive value plus the total of the rest |
| ForecastBlending.ProfileTotal | custom_components/solar_forecast_ml/forecast/orchestrator.py:426-434 | the loop sums exactly the positive hourly averages |
| ForecastBlending.ProfileBase | custom_components/solar_forecast_ml/forecast/orchestrator.py:411-447 | there is no base without a profile, and the base is 0 for an hour the profile lacks or holds no positive value for |
| ForecastBlending.ProfileBaseIsShare | custom_components/solar_forecast_ml/forecast/orchestrator.py:426-447 | with a profile, the base for an hour is a share of the day's forecast, between 0 and the whole |
| ForecastBlending.MlHourlyProfileBase | custom_components/solar_forecast_ml/forecast/orchestrator.py:411-447 | computes the specified profile base |
| ForecastBlending.LuxFactor | custom_components/solar_forecast_ml/forecast/orchestrator.py:467-471 | the lux factor lies within [0.1, 1.2] |
| ForecastBlending.LuxFactorMonotone | custom_components/solar_forecast_ml/forecast/orchestrator.py:467-471 | more light never lowers the lux factor |
| ForecastBlending.CloudLuxFactor | custom_components/solar_forecast_ml/forecast/orchestrator.py:464-481 | the light factor lies within [0.1, 1.2], and is 1 without lux or cloud data |
| ForecastBlending.TemperatureAdjustment | custom_components/solar_forecast_ml/forecast/orchestrator.py:483-492 | the temperature factor is the weather calculator's factor when there is a reading and 1 otherwise, and lies in [0.7, 1.1] |
| ForecastBlending.RainFactor | custom_components/solar_forecast_ml/forecast/orchestrator.py:494-500 | the rain factor lies in [0.2, 1], and is 1 exactly when there is no positive rain |
| ForecastBlending.ClampFactors | custom_components/solar_forecast_ml/forecast/orchestrator.py:502-503 | every factor is clamped to [0, 1.5], and no factor is added or removed |
| ForecastBlending.UnclampedFactors | custom_components/solar_forecast_ml/forecast/orchestrator.py:457-500 | there are exactly the three factors, each within [0.1, 1.2] |
| ForecastBlending.FinalClampChangesNothing | custom_components/solar_forecast_ml/forecast/orchestrator.py:502-503 | the final clamp to [0, 1.5] never changes a factor |
| ForecastBlending.RealtimeAdjustmentFactors | custom_components/solar_forecast_ml/forecast/orchestrator.py:449-506 | returns the specified factors, each within [0, 1.5] |
| ForecastBlending.ScaledZero | custom_components/solar_forecast_ml/forecast/orchestrator.py:392-398 | applying factors to a zero base gives zero |
| ForecastBlending.NextHourNonNegative | custom_components/solar_forecast_ml/forecast/orchestrator.py:350-409 | the next-hour prediction is non-negative, and 0 when the day's forecast is 0 |
| ForecastBlending.ApplyFactors | custom_components/solar_forecast_ml/forecast/orchestrator.py:392-398 | the loop multiplies the base by every factor |
| ForecastBlending.NextHourPrediction | custom_components/solar_forecast_ml/forecast/orchestrator.py:350-409 | computes the specified next-hour prediction |
| Physics.IsValidIff | custom_components/solar_forecast_ml/physics/physics_engine.py:74-80 | irradiance is valid exactly when all components are non-negative and GHI is at most 1400 W/m² |
| Physics.DiffuseFactor | custom_components/solar_forecast_ml/physics/physics_engine.py:240-264 | the twilight diffuse factor lies in [0, 1]: 1 at or above 3° elevation and below −2°, 0 at −2° |
| Physics.DiffuseFactorMonotone | custom_components/solar_forecast_ml/physics/physics_engine.py:240-264 | within the twilight band, the diffuse factor rises with elevation |
| Physics.CosAoi | custom_components/solar_forecast_ml/physics/physics_engine.py:202-211 | the cosine of the angle of incidence is clamped to [−1, 1] |
| Physics.PhysicsEngine.constructor | custom_components/solar_forecast_ml/physics/physics_engine.py:139-159 | the engine keeps the capacity, albedo and efficiency; the tilt and azimuth default when absent; the geometry confidence is 0 without a configured tilt |
| Physics.PhysicsEngine.UpdateGeometry | custom_components/solar_forecast_ml/physics/physics_engine.py:173-187 | only the geometry and its confidence change |
| Physics.PhysicsEngine.GeometryOr | custom_components/solar_forecast_ml/physics/physics_engine.py:195-196 | a given geometry overrides the engine's own |
| Physics.PhysicsEngine.AngleOfIncidence | custom_components/solar_forecast_ml/physics/physics_engine.py:189-216 | 90° with the sun at or below the horizon, otherwise the arccosine of the clamped cosine |
| Physics.PhysicsEngine.PoaIrradiance | custom_components/solar_forecast_ml/physics/physics_engine.py:218-280 | invalid irradiance gives zeros at 90°; every component is non-negative; no beam reaches the panel with the sun below the horizon |
| Physics.PhysicsEngine.PoaTotalAtMostComponents | custom_components/solar_forecast_ml/physics/physics_engine.py:218-280 | the plane-of-array total never exceeds the sum of its beam, diffuse and ground parts |
| Physics.PhysicsEngine.CellTemperature | custom_components/solar_forecast_ml/physics/physics_engine.py:282-294 | cells are at ambient temperature without irradiance, and hotter than ambient with it |
| Physics.PhysicsEngine.CellTemperatureMonotone | custom_components/solar_forecast_ml/physics/physics_engine.py:282-294 | more irradiance never cools the cells |
| Physics.PhysicsEngine.TemperatureCorrection | custom_components/solar_forecast_ml/physics/physics_engine.py:296-306 | the correction lies in [0.5, 1.2] and is 1 at standard test conditions |
| Physics.PhysicsEngine.TemperatureCorrectionMonotone | custom_components/solar_forecast_ml/physics/physics_engine.py:296-306 | hotter cells never raise the correction |
| Physics.PhysicsEngine.PowerOutput | custom_components/solar_forecast_ml/physics/physics_engine.py:308-353 | the power is non-negative with a correction within [0.5, 1.2]; no irradiance on the panel gives the zero result; invalid input gives no power |
| Physics.PhysicsEngine.PowerAtMostNominal | custom_components/solar_forecast_ml/physics/physics_engine.py:308-353 | the power never exceeds 1.2 × the nominal output for the plane-of-array irradiance |
| ProductionTracking.HoursBetween | custom_components/solar_forecast_ml/production/production_tracker.py:461-463 | the duration in hours is the elapsed seconds over 3600, and is non-negative forward in time |
| ProductionTracking.ClockReading | custom_components/solar_forecast_ml/production/production_tracker.py:518-526 | the displayed hours, minutes and seconds lie within their ranges and give the whole seconds of the duration |
| ProductionTracking.ProductionTimeCalculator.constructor | custom_components/solar_forecast_ml/production/production_tracker.py:26-66 | a new tracker is inactive, with no times, zero hours and nothing to save |
| ProductionTracking.ProductionTimeCalculator.ProductionHours | custom_components/solar_forecast_ml/production/production_tracker.py:506-516 | the hours are the accumulated hours, plus the running phase while active |
| ProductionTracking.ProductionTimeCalculator.IsCurrentlyProducing | custom_components/solar_forecast_ml/production/production_tracker.py:528-530 | production is reported exactly while the tracker is active |
| ProductionTracking.ProductionTimeCalculator.StartTracking | custom_components/solar_forecast_ml/production/production_tracker.py:443-451 | the tracker becomes active from now with the zero-power timer cleared; starting from inactive does not change today's hours |
| ProductionTracking.ProductionTimeCalculator.StopTracking | custom_components/solar_forecast_ml/production/production_tracker.py:453-473 | stopping an inactive tracker changes nothing; otherwise the phase's hours are added and the tracker ends inactive with the end time recorded |
| ProductionTracking.ProductionTimeCalculator.LowPowerWhileActive | custom_components/solar_forecast_ml/production/production_tracker.py:410-432 | the first low reading starts the zero-power timer; production stops once low power has lasted longer than the timeout |
| ProductionTracking.ProductionTimeCalculator.HandlePowerChange | custom_components/solar_forecast_ml/production/production_tracker.py:336-441 | an unreadable sensor changes nothing while inactive; enough power starts production or clears the timer; low power runs the timeout; power above 10 W resets the low-power streak |
| ProductionTracking.ProductionTimeCalculator.MidnightReset | custom_components/solar_forecast_ml/production/production_tracker.py:476-504 | today's total is saved, the counters are cleared, and an active phase restarts at midnight |
| BatteryTracking.DayKeyAsWrittenConfusesMonths | custom_components/solar_forecast_ml/extra_features/grid_price_monitor/core/battery_tracker.py:182-188 | the 5th of January and the 5th of February share the day key the source compares |
| BatteryTracking.WeekAndMonthKeysAsWrittenConfuseYears | custom_components/solar_forecast_ml/extra_features/grid_price_monitor/core/battery_tracker.py:184-204 | the same ISO week or month of two different years share the keys the source compares |
| BatteryTracking.PeriodReset | custom_components/solar_forecast_ml/extra_features/grid_price_monitor/core/battery_tracker.py:187-209 | a total is cleared when a previous period is known and differs from the current one, and kept otherwise |
| BatteryTracking.DailyTotalAsWrittenSurvivesAMonth | custom_components/solar_forecast_ml/extra_features/grid_price_monitor/core/battery_tracker.py:182-269 | with the day key as written, a last update on the 5th of January keeps, and a total saved then restores, the daily energy on the 5th of February; with the corrected key both clear it |
| BatteryTracking.KeysIdentifyPeriods | custom_components/solar_forecast_ml/extra_features/grid_price_monitor/core/battery_tracker.py:180-214 | the corrected keys are equal exactly for the same calendar day, ISO week and month |
| BatteryTracking.EnergyStep | custom_components/solar_forecast_ml/extra_features/grid_price_monitor/core/battery_tracker.py:153-159 | the energy of a step is non-negative for non-negative power forward in time, and 0 with no power or no time |
| BatteryTracking.EnergyStepsAdd | custom_components/solar_forecast_ml/extra_features/grid_price_monitor/core/battery_tracker.py:153-164 | the left Riemann sum over two adjacent intervals at one power equals that over their union |
| BatteryTracking.WhToKwh | custom_components/solar_forecast_ml/extra_features/grid_price_monitor/core/battery_tracker.py:77-90 | the reported kWh is within half a Wh of the exact value and non-negative for non-negative energy |
| BatteryTracking.Restored | custom_components/solar_forecast_ml/extra_features/grid_price_monitor/core/battery_tracker.py:253-269 | a stored total is restored only when it belongs to the current period, and is 0 otherwise |
| BatteryTracking.RestoreOnlySamePeriod | custom_components/solar_forecast_ml/extra_features/grid_price_monitor/core/battery_tracker.py:253-269 | with the corrected keys, stored totals survive a restart exactly within the same day, ISO week and month |
| BatteryTracking.BatteryTracker.constructor | custom_components/solar_forecast_ml/extra_features/grid_price_monitor/core/battery_tracker.py:32-70 | a new tracker has no power, no energy, no periods and nothing to save |
| BatteryTracking.BatteryTracker.CheckDateResets | custom_components/solar_forecast_ml/extra_features/grid_price_monitor/core/battery_tracker.py:180-214 | each period total is cleared exactly when a previous period is known and differs under the corrected keys, and the current periods are recorded |
| BatteryTracking.BatteryTracker.StateChanged | custom_components/solar_forecast_ml/extra_features/grid_price_monitor/core/battery_tracker.py:132-178 | an unreadable sensor changes nothing; otherwise the periods are checked under the corrected keys, the previous power's energy is added to all three totals, and the clamped new power is recorded |
| BatteryTracking.BatteryTracker.InitialReading | custom_components/solar_forecast_ml/extra_features/grid_price_monitor/core/battery_tracker.py:100-113 | a readable sensor sets the clamped power and the update time without touching any total |
| BatteryTracking.BatteryTracker.LoadData | custom_components/solar_forecast_ml/extra_features/grid_price_monitor/core/battery_tracker.py:235-280 | without stored data nothing changes; otherwise each total is restored only for its own period under the corrected keys, and the current periods are recorded |
| PriceCalculating.VatFactorOf | custom_components/solar_forecast_ml/extra_features/grid_price_monitor/core/calculator.py:52-54 | the VAT factor is at least 1 for a non-negative rate, and 0 exactly at −100 % |
| PriceCalculating.IsCheap | custom_components/solar_forecast_ml/extra_features/grid_price_monitor/core/calculator.py:168-178 | a price is cheap exactly when strictly below the maximum |
| PriceCalculating.CalculateTrend | custom_components/solar_forecast_ml/extra_features/grid_price_monitor/core/calculator.py:180-204 | unknown without both prices; otherwise rising above +1, falling below −1, stable in between |
| PriceCalculating.TrendAntisymmetric | custom_components/solar_forecast_ml/extra_features/grid_price_monitor/core/calculator.py:180-204 | swapping the two prices turns rising into falling and keeps stable |
| PriceCalculating.Calibration | custom_components/solar_forecast_ml/extra_features/grid_price_monitor/core/calculator.py:130-166 | calibration fails exactly when the total does not exceed the gross spot price; otherwise every markup part is non-negative |
| PriceCalculating.CalibrationSplitsMarkup | custom_components/solar_forecast_ml/extra_features/grid_price_monitor/core/calculator.py:161-166 | the markup is split 60/30/10 between grid fee, taxes and provider, up to rounding, and the parts add up to it |
| PriceCalculating.CalibrationReproducesPrice | custom_components/solar_forecast_ml/extra_features/grid_price_monitor/core/calculator.py:130-166 | the calibrated markups reproduce the observed total price to within 2 hundredths |
| PriceCalculating.PriceCalculator.constructor | custom_components/solar_forecast_ml/extra_features/grid_price_monitor/core/calculator.py:21-39 | the calculator holds the given VAT rate and markups |
| PriceCalculating.PriceCalculator.GrossSpot | custom_components/solar_forecast_ml/extra_features/grid_price_monitor/core/calculator.py:91-100 | the gross spot price is the net price with VAT, up to rounding |
| PriceCalculating.PriceCalculator.TotalPrice | custom_components/solar_forecast_ml/extra_features/grid_price_monitor/core/calculator.py:102-114 | the total price is the gross spot price plus all markups, up to rounding |
| PriceCalculating.PriceCalculator.SpotFromTotal | custom_components/solar_forecast_ml/extra_features/grid_price_monitor/core/calculator.py:116-128 | the inverse is undefined exactly at a VAT rate of −100 % |
| PriceCalculating.PriceCalculator.SpotFromTotalInvertsTotal | custom_components/solar_forecast_ml/extra_features/grid_price_monitor/core/calculator.py:102-128 | recovering the spot price from a computed total gives the net spot price back to within a hundredth |
| PriceCalculating.PriceCalculator.MarkupFromCalibration | custom_components/solar_forecast_ml/extra_features/grid_price_monitor/core/calculator.py:130-166 | calibration uses the override VAT rate when given, and the configured rate otherwise |
| PriceCalculating.PriceCalculator.BuildForecastEntry | custom_components/solar_forecast_ml/extra_features/grid_price_monitor/core/calculator.py:206-231 | an entry carries the net price (0 when missing), its gross and total prices, whether it is cheap, and the hour and timestamp |
| PriceCalculating.PriceCalculator.UpdateConfig | custom_components/solar_forecast_ml/extra_features/grid_price_monitor/core/calculator.py:233-261 | each setting given is replaced and each setting left out is kept |
| DataManagement.TruthyStampsMembers | custom_components/solar_forecast_ml/data/manager.py:1303-1314 | a timestamp is among the seen stamps exactly when some sample carries it as a truthy value |
| DataManagement.KeptFirstFromInput | custom_components/solar_forecast_ml/data/manager.py:1303-1314 | every kept sample comes from the input and has a truthy timestamp |
| DataManagement.KeptFirstStamps | custom_components/solar_forecast_ml/data/manager.py:1303-1314 | de-duplication keeps every timestamp and exactly one sample per timestamp |
| DataManagement.KeptFirstDistinct | custom_components/solar_forecast_ml/data/manager.py:1303-1314 | no two kept samples share a timestamp |
| DataManagement.DeduplicateSamples | custom_components/solar_forecast_ml/data/manager.py:1303-1337 | the loop fails exactly when some truthy timestamp is a list or dictionary, which Python cannot hash; otherwise it keeps the first sample of each timestamp, and kept plus removed account for the input |
| DataManagement.FloatOf | custom_components/solar_forecast_ml/data/manager.py:1373-1383 | numbers convert to their value, and null, dictionaries and lists do not convert |
| DataManagement.ProducingSamplesMembers | custom_components/solar_forecast_ml/data/manager.py:1372-1385 | a sample survives exactly when it is in the input and its production exceeds 0.01 kWh or cannot be parsed |
| DataManagement.MissingOrSmallValueRemoved | custom_components/solar_forecast_ml/data/manager.py:1372-1385 | a sample with no production value, or with at most 0.01 kWh, is removed |
| DataManagement.ProducingSamplesIdempotent | custom_components/solar_forecast_ml/data/manager.py:1372-1385 | running the zero-production clean-up twice removes nothing more |
| DataManagement.RemoveZeroProduction | custom_components/solar_forecast_ml/data/manager.py:1372-1385 | the loop keeps exactly the producing samples, and kept plus removed account for the input |
| DataManagement.LengthMatchesSetIffDistinct | custom_components/solar_forecast_ml/data/manager.py:1498-1508 | the set of timestamps is as large as the list exactly when the timestamps are distinct |
| DataManagement.ValidateCleaned | custom_components/solar_forecast_ml/data/manager.py:1490-1514 | a cleaned list is valid exactly when every sample has the required keys, no timestamp is a list or dictionary, and no two share a timestamp |
| DataManagement.DeduplicatedPassesValidation | custom_components/solar_forecast_ml/data/manager.py:1303-1314 | for samples that carry the required keys, the de-duplicated list is valid exactly when no truthy timestamp is a list or dictionary |
| DataManagement.RecentSamplesMembers | custom_components/solar_forecast_ml/data/manager.py:621-644 | a sample survives pruning exactly when it is in the input and its local time is not before the cutoff |
| DataManagement.PruneOldSamples | custom_components/solar_forecast_ml/data/manager.py:621-644 | the loop keeps exactly the recent samples |
| DataManagement.SamplesAfterAdd | custom_components/solar_forecast_ml/data/manager.py:596-657 | a sample missing a key or repeating a timestamp changes nothing; otherwise the result holds exactly the recent samples among the old ones and the new one |
| DataManagement.AddSampleTwice | custom_components/solar_forecast_ml/data/manager.py:612-616 | adding the same recent sample twice is the same as adding it once |
| DataManagement.AppendBounded | custom_components/solar_forecast_ml/data/manager.py:336-339 | the new record ends the history, the history stays within 365 records, and a short history simply grows by one |
| DataManagement.AppendAllKeepsNewest | custom_components/solar_forecast_ml/data/manager.py:336-339 | adding records one by one keeps exactly the newest 365 of them all |
| DataManagement.BeforeTotal | custom_components/solar_forecast_ml/data/manager.py:1670 | the string order used for sorting is total on distinct datetimes, as well as irreflexive and transitive |
| DataManagement.AbsorbKeys | custom_components/solar_forecast_ml/data/manager.py:1655-1667 | absorbing entries adds exactly their datetimes as keys, keeps every entry under its own datetime, and leaves the other keys alone |
| DataManagement.AbsorbLastWins | custom_components/solar_forecast_ml/data/manager.py:1664-1667 | the last entry for a datetime is the one kept |
| DataManagement.MergeNewOverwritesOld | custom_components/solar_forecast_ml/data/manager.py:1655-1667 | the merged hours are keyed by the union of old and new datetimes, and the last new entry for a datetime overwrites any old one |
| DataManagement.AbsorbEntries | custom_components/solar_forecast_ml/data/manager.py:1658-1667 | the loop computes the specified absorption |
| DataManagement.AscendingIsStrict | custom_components/solar_forecast_ml/data/manager.py:1670 | a sorted merge lists its datetimes in strictly increasing order, so no datetime repeats |
| DataManagement.Insert | custom_components/solar_forecast_ml/data/manager.py:1670 | the list grows by one and starts with the new entry or the old first entry |
| DataManagement.InsertMembers | custom_components/solar_forecast_ml/data/manager.py:1670 | inserting adds exactly the new entry and keeps every other |
| DataManagement.InsertAscending | custom_components/solar_forecast_ml/data/manager.py:1670 | inserting a new datetime into a sorted list keeps it sorted |
| DataManagement.SortByDatetime | custom_components/solar_forecast_ml/data/manager.py:1670 | the result is sorted by datetime and holds exactly the merged entries, one per datetime |
| DataManagement.MergeForecast | custom_components/solar_forecast_ml/data/manager.py:1638-1676 | the merge is sorted, has distinct datetimes, holds one entry per datetime of either list, and its entries are exactly the merged hours |
| DataManagement.HoursOnTwoDaysBounded | custom_components/solar_forecast_ml/data/manager.py:1764-1767 | hours counted for two different days never exceed the number of hours |
| DataManagement.ValidateForecastQuality | custom_components/solar_forecast_ml/data/manager.py:1726-1792 | today's and tomorrow's hours are counted by local day, and the forecast is complete exactly with at least 6 and 12 of them |
| DataManagement.DataStore.constructor | custom_components/solar_forecast_ml/data/manager.py:76-77 | a new store has no samples and no predictions |
| DataManagement.DataStore.AddPredictionRecord | custom_components/solar_forecast_ml/data/manager.py:320-352 | an invalid record is refused with its error; a valid one is appended within the history bound; samples are untouched |
| DataManagement.DataStore.AddHourlySample | custom_components/solar_forecast_ml/data/manager.py:596-657 | the samples become the specified result of adding; a repeated timestamp changes nothing |
| DataManagement.DataStore.CleanupDuplicateSamples | custom_components/solar_forecast_ml/data/manager.py:1271-1337 | an empty list reports nothing; an unhashable truthy timestamp makes the cleanup fail and keeps the samples; a valid de-duplicated list replaces the samples with accurate counts; an invalid one is refused and the samples are kept |
| DataManagement.DataStore.CleanupZeroProductionSamples | custom_components/solar_forecast_ml/data/manager.py:1340-1403 | an empty list reports nothing; a valid list of producing samples replaces the samples with accurate counts; an invalid one, including one with a list or dictionary timestamp, is refused and the samples are kept |
| CoordinatorHelpers.NextUpdateTime | custom_components/solar_forecast_ml/core/core_coordinator_helpers.py:29-41 | the next update is never in the past: it is now without a previous update, the previous update plus the interval if that is still ahead, and otherwise now |
| CoordinatorHelpers.ShouldForceUpdate | custom_components/solar_forecast_ml/core/core_coordinator_helpers.py:44-50 | an update is forced without a previous one, and otherwise exactly when the data is older than the maximum age |
| CoordinatorHelpers.ValidateCoordinatorData | custom_components/solar_forecast_ml/core/core_coordinator_helpers.py:53-62 | coordinator data is valid exactly when it has both a last-update time and forecasts |
| CoordinatorHelpers.MergeForecastData | custom_components/solar_forecast_ml/core/core_coordinator_helpers.py:65-77 | the merge fails exactly when both sides have forecasts and one of them is not a dictionary |
| CoordinatorHelpers.AgeHuman | custom_components/solar_forecast_ml/core/core_coordinator_helpers.py:106-113 | the age is shown in seconds below a minute, whole minutes below an hour, whole hours below a day, and days beyond, each rounded down |
| CoordinatorHelpers.DataStaleness | custom_components/solar_forecast_ml/core/core_coordinator_helpers.py:80-120 | without an update, no data; otherwise the age is reported, and the data is stale exactly from 1 hour; fresh under 15 minutes, acceptable under 1 hour, stale under 6 hours, very stale beyond |
| CoordinatorHelpers.CountsAddUp | custom_components/solar_forecast_ml/core/core_coordinator_helpers.py:125-127 | successful and failed updates together account for every result |
| CoordinatorHelpers.FormatUpdateSummary | custom_components/solar_forecast_ml/core/core_coordinator_helpers.py:123-134 | all succeeded exactly when no update failed, all failed exactly when there were updates and none succeeded, and otherwise a partial count strictly between 0 and the total |

## Left out

- File and network I/O is not modelled. This covers JSON persistence, backups, file locks, Home Assistant state listeners, scheduled saves and logging. Operations take their inputs and return their results.
- The clock, the sun position, the time zone and local dates are parameters. So are `math.sin`, `math.acos`, `math.log` and `math.exp`, and the parsing of strings to numbers and dates.
- Floating-point arithmetic is modelled as exact real arithmetic. Python's `round` is modelled as round-half-even on reals. NaN and infinity are not modelled, including a `float()` that parses "nan".
- Exceptions that the source catches and logs are modelled as the branch that follows the `except`, or as an error value where the source returns one.
- Hour keys of hourly profiles are integers, where the source uses `str(hour)`.
- The keys of the real-time adjustment factors are an enumeration, where the source uses the strings "cloud/lux", "temperature" and "rain".
- HOURLY_PRODUCTION_SAFETY_MARGIN and DEFAULT_MAX_HOURLY_KWH are imported by ml/prediction_strategies.py but const.py does not define them. They are parameters (`Limits`).
- Only the pieces of the forecast orchestrator that decide are modelled: blending, the next-hour prediction, the profile base, the real-time factors and the production-hour test. The daily rule-based strategies it calls are not part of this model.
- Physics.PhysicsEngine: `calculate_hourly_forecast` and `estimate_geometry_from_production` are not modelled. They are loops over the modelled per-hour computation and a least-squares search.
- ProductionTracking.ProductionTimeCalculator.HandlePowerChange: the peak-power update that forwards readings to the data manager (production_tracker.py:373-394) is not modelled, because it is I/O.
- ProductionTracking.Clock: the string formatting of `get_production_time` is not modelled. The hours, minutes and seconds it formats are.
- PriceCalculating.PriceCalculator.UpdateConfig covers the individual property setters (calculator.py:47-84). They are not modelled separately.
- BatteryTracking.LoadData does not model the defaults that are filled in for a stored file with missing keys.
- DataManagement: forecast entries whose "datetime" is not a string are treated as having no datetime.
- DataManagement.DataStore.AddHourlySample does not model the outer fallback that keeps every sample when an unexpected error occurs while parsing timestamps (manager.py:641-643).
- CoordinatorHelpers.MergeForecastData does not model building the dictionary from a list of pairs. It also does not model that the source updates the old data's nested forecast dictionary in place, which aliases it.
- CoordinatorHelpers.NextUpdateTime reads the clock once, where the source reads it twice.
- FrostDetection.DetectFrost returns only the verdict fields. The indicators are not modelled: the partial scores, the probability bonus, the rounded dew point, frost margin and radiation deficit. Nor is the frost analysis: the correlation difference, the threshold used, the wind factor and the ratio of measured to expected radiation as percentages. The reason strings are not modelled either. The source reports the frost probability rounded to 3 decimals (data_frost_detection.py:127); the decisions at lines 156 and 212-214 use the unrounded value, as the model does.
- WeatherCalculator.Lower folds only the ASCII letters A to Z, where Python's `str.lower()` also folds other Unicode letters.
- Common.Value keeps integers and floats apart, so `Int(1)` differs from `Float(1.0)`, whereas Python treats `1 == 1.0` as true when comparing timestamps and keys.

## Findings

| source | as written | input that shows it | evidently intended | confidence | as-written member | corrected member |
|---|---|---|---|---|---|---|
| custom_components/solar_forecast_ml/extra_features/grid_price_monitor/core/battery_tracker.py:182-214, 253-269 | the day, ISO week and month are compared by number alone, without month or year | a last update on 5 January and the next reading on 5 February keep January's daily total; the same happens for the same ISO week or month a year apart, also when loading stored totals | each reset and restore compares the whole calendar day, ISO week-year and week, and year and month | not executed | BatteryTracking.DailyTotalAsWrittenSurvivesAMonth | BatteryTracking.KeysIdentifyPeriods |
